/**
 * Token rotation against deactivation and reuse detection, statement by statement: which row locks
 * are held while, what others can see of a rotation before it commits, and which rows the snapshot
 * of a deletion shows.
 */
module RotationLocks {
  import opened Common

  type TxId = nat
  type Token = nat

  /** A stored refresh token; `rotated` remembers that a rotation issued it. */
  datatype Row = Row(user: Uuid, rotated: bool, revoked: bool)

  datatype Stage =
    | Begun
    | UserLocked      // rotation: user row FOR SHARE, `is_active` read
    | TokenLocked     // rotation: token row FOR UPDATE
    | Revoking        // rotation: old token marked, not committed
    | Issuing         // rotation: new token inserted, not committed
    | Waiting         // the deletion of the user's rows has its snapshot and waits for their locks
    | Wiping          // rotation: those rows deleted, not committed
    | Updated         // update: user row written, not committed
    | Deleted         // update: those rows deleted, not committed

  /** `seen`: the user's rows as the deletion's snapshot shows them; `doomed`: those it deletes. */
  datatype Tx =
    | Rotation(user: Uuid, token: Token, next: Token, stage: Stage, active: bool, reused: bool,
               seen: set<Token>, doomed: set<Token>)
    | Update(user: Uuid, target: Option<bool>, endAll: bool, stage: Stage, seen: set<Token>, doomed: set<Token>)

  datatype State = State(
    active: map<Uuid, bool>,         // committed `users.is_active`
    rows: map<Token, Row>,           // committed `refresh_tokens`
    txs: map<TxId, Tx>,              // open transactions
    used: set<Token>,                // every token ever named
    exchanges: map<Token, nat>)      // committed exchanges of each token

  datatype Action =
    | BeginRotation(x: TxId, user: Uuid, token: Token, next: Token)
    | LockUser(x: TxId)
    | LockToken(x: TxId)
    | Revoke(x: TxId)
    | Issue(x: TxId)
    | Wipe(x: TxId)
    | BeginUpdate(x: TxId, user: Uuid, target: Option<bool>, endAll: bool)
    | WriteUser(x: TxId)
    | DeleteTokens(x: TxId)
    | Sweep(x: TxId)
    | Commit(x: TxId)
    | Abort(x: TxId)
    | Login(user: Uuid, token: Token)
    | Logout(token: Token)

  // -------------------------------------------------------------- row locks

  predicate SharesUser(tx: Tx, user: Uuid) {
    tx.Rotation? && tx.user == user && !tx.stage.Begun?
  }

  predicate OwnsUser(tx: Tx, user: Uuid) {
    tx.Update? && tx.user == user && !tx.stage.Begun?
  }

  predicate OwnsToken(tx: Tx, token: Token) {
    token in tx.doomed
    || (tx.Rotation? && tx.token == token && !tx.stage.Begun? && !tx.stage.UserLocked?)
  }

  ghost predicate UserFree(s: State, x: TxId, user: Uuid, share: bool) {
    forall y :: y in s.txs && y != x ==> !OwnsUser(s.txs[y], user) && (share || !SharesUser(s.txs[y], user))
  }

  ghost predicate TokenFree(s: State, x: TxId, token: Token) {
    forall y :: y in s.txs && y != x ==> !OwnsToken(s.txs[y], token)
  }

  /** None of `tokens` that is still there is locked by somebody else. */
  ghost predicate TokensFree(s: State, x: TxId, tokens: set<Token>) {
    forall t :: t in tokens && t in s.rows ==> TokenFree(s, x, t)
  }

  function TokensOf(s: State, user: Uuid): set<Token> {
    set t | t in s.rows && s.rows[t].user == user
  }

  predicate At(s: State, x: TxId, stage: Stage) {
    x in s.txs && s.txs[x].stage == stage
  }

  ghost predicate Enabled(s: State, a: Action) {
    match a
    case BeginRotation(x, _, token, next) => x !in s.txs && next !in s.used && token != next
    case LockUser(x) =>
      At(s, x, Begun) && s.txs[x].Rotation? && s.txs[x].user in s.active && UserFree(s, x, s.txs[x].user, true)
    case LockToken(x) =>
      At(s, x, UserLocked) && s.txs[x].Rotation?
      && s.txs[x].token in s.rows && s.rows[s.txs[x].token].user == s.txs[x].user && TokenFree(s, x, s.txs[x].token)
    case Revoke(x) => At(s, x, TokenLocked) && s.txs[x].Rotation? && !s.txs[x].reused
    case Issue(x) => At(s, x, Revoking) && s.txs[x].Rotation? && s.txs[x].active
    case Wipe(x) =>
      x in s.txs && s.txs[x].Rotation?
      && (if s.txs[x].reused then s.txs[x].stage.TokenLocked? else s.txs[x].stage.Revoking? && !s.txs[x].active)
    // The flag is only ever cleared together with the sessions.
    case BeginUpdate(x, _, target, endAll) => x !in s.txs && (target == Some(false) ==> endAll)
    case WriteUser(x) =>
      At(s, x, Begun) && s.txs[x].Update? && s.txs[x].user in s.active && UserFree(s, x, s.txs[x].user, false)
    case DeleteTokens(x) => At(s, x, Updated) && s.txs[x].Update? && s.txs[x].endAll
    // The deletion goes through the rows of its snapshot, once nobody else has them.
    case Sweep(x) => At(s, x, Waiting) && TokensFree(s, x, s.txs[x].seen)
    case Commit(x) =>
      x in s.txs && (s.txs[x].stage.Issuing? || s.txs[x].stage.Wiping? || s.txs[x].stage.Deleted?
                     || (s.txs[x].stage.Updated? && s.txs[x].Update? && !s.txs[x].endAll))
    case Abort(x) => x in s.txs
    // Login reads the account without a lock, so its insert may come at any time.
    case Login(user, token) => user in s.active && token !in s.used
    case Logout(token) => forall y :: y in s.txs ==> !OwnsToken(s.txs[y], token)
  }

  function Exchanged(s: State, token: Token): nat {
    if token in s.exchanges then s.exchanges[token] else 0
  }

  function Committed(s: State, tx: Tx): State {
    match tx.stage
    case Issuing =>
      if tx.Rotation? && tx.token in s.rows then
        s.(rows := s.rows[tx.token := s.rows[tx.token].(revoked := true)][tx.next := Row(tx.user, true, false)],
           exchanges := s.exchanges[tx.token := Exchanged(s, tx.token) + 1])
      else s
    case _ =>
      s.(rows := s.rows - tx.doomed,
         active := if tx.Update? && tx.target.Some? then s.active[tx.user := tx.target.value] else s.active)
  }

  function Do(s: State, a: Action): State
    requires Enabled(s, a)
  {
    match a
    case BeginRotation(x, user, token, next) =>
      s.(txs := s.txs[x := Rotation(user, token, next, Begun, false, false, {}, {})], used := s.used + {token, next})
    case LockUser(x) => s.(txs := s.txs[x := s.txs[x].(stage := UserLocked, active := s.active[s.txs[x].user])])
    case LockToken(x) =>
      s.(txs := s.txs[x := s.txs[x].(stage := TokenLocked, reused := s.rows[s.txs[x].token].revoked)])
    case Revoke(x) => s.(txs := s.txs[x := s.txs[x].(stage := Revoking)])
    case Issue(x) => s.(txs := s.txs[x := s.txs[x].(stage := Issuing)])
    case Wipe(x) => s.(txs := s.txs[x := s.txs[x].(stage := Waiting, seen := TokensOf(s, s.txs[x].user))])
    case BeginUpdate(x, user, target, endAll) => s.(txs := s.txs[x := Update(user, target, endAll, Begun, {}, {})])
    case WriteUser(x) => s.(txs := s.txs[x := s.txs[x].(stage := Updated)])
    case DeleteTokens(x) => s.(txs := s.txs[x := s.txs[x].(stage := Waiting, seen := TokensOf(s, s.txs[x].user))])
    case Sweep(x) =>
      var stage := if s.txs[x].Rotation? then Wiping else Deleted;
      s.(txs := s.txs[x := s.txs[x].(stage := stage, doomed := s.txs[x].seen * s.rows.Keys)])
    case Commit(x) => Committed(s.(txs := s.txs - {x}), s.txs[x])
    case Abort(x) => s.(txs := s.txs - {x})
    case Login(user, token) => s.(rows := s.rows[token := Row(user, false, false)], used := s.used + {token})
    case Logout(token) =>
      s.(rows := if token in s.rows then s.rows[token := s.rows[token].(revoked := true)] else s.rows)
  }

  ghost predicate Init(s: State) {
    s.rows == map[] && s.txs == map[] && s.used == {} && s.exchanges == map[]
  }

  // --------------------------------------------------------------- invariant

  /** Deactivating ends every session: an update that sets the flag to false also deletes. */
  predicate Deactivates(tx: Tx) {
    tx.Update? && tx.target == Some(false)
  }

  /** What an open transaction may rely on while it holds its locks. */
  ghost predicate TxOk(s: State, x: TxId)
    requires x in s.txs
  {
    var tx := s.txs[x];
    && (tx.Rotation? ==> tx.stage in {Begun, UserLocked, TokenLocked, Revoking, Issuing, Waiting, Wiping})
    && (tx.Update? ==> tx.stage in {Begun, Updated, Waiting, Deleted} && (Deactivates(tx) ==> tx.endAll))
    && (!tx.stage.Begun? ==> tx.user in s.active)
    && (tx.Rotation? && !tx.stage.Begun? ==> tx.active == s.active[tx.user])
    && (tx.stage.Issuing? ==> tx.active)
    && (tx.Rotation? && tx.stage in {TokenLocked, Revoking, Issuing} ==>
          tx.token in s.rows && s.rows[tx.token].user == tx.user && s.rows[tx.token].revoked == tx.reused)
    && (tx.Rotation? && tx.stage in {Revoking, Issuing} ==> !tx.reused)
    && WipeOk(s, tx)
    && (tx.Rotation? ==>
          tx.token in s.used && tx.next in s.used && tx.next !in s.rows && tx.next !in s.exchanges
              && tx.next != tx.token)
  }

  /** A deletion dooms what is left of its snapshot, and an update's has seen every token a rotation issued. */
  ghost predicate WipeOk(s: State, tx: Tx) {
    && tx.seen <= s.used
    && (forall t :: t in tx.seen && t in s.rows ==> s.rows[t].user == tx.user)
    && (tx.stage in {Wiping, Deleted} ==> tx.doomed == tx.seen * s.rows.Keys)
    && (tx.Update? && tx.stage in {Waiting, Deleted} ==>
          forall t :: t in s.rows && s.rows[t].user == tx.user && s.rows[t].rotated ==> t in tx.seen)
  }

  /** No snapshot shows a token that a rotation under way is to issue. */
  ghost predicate SnapshotsOk(s: State) {
    forall x, y :: x in s.txs && y in s.txs && s.txs[y].Rotation? ==> s.txs[y].next !in s.txs[x].seen
  }

  /** Locks exclude each other as PostgreSQL's do. */
  ghost predicate LocksOk(s: State) {
    && (forall x, y, u :: x in s.txs && y in s.txs && x != y && OwnsUser(s.txs[x], u) ==>
          !OwnsUser(s.txs[y], u) && !SharesUser(s.txs[y], u))
    && (forall x, y, t :: x in s.txs && y in s.txs && x != y && OwnsToken(s.txs[x], t) ==> !OwnsToken(s.txs[y], t))
    && (forall x, y :: x in s.txs && y in s.txs && x != y && s.txs[x].Rotation? && s.txs[y].Rotation? ==>
          s.txs[x].next != s.txs[y].next)
  }

  ghost predicate NoRotatedTokens(s: State, user: Uuid) {
    forall t :: t in s.rows && s.rows[t].user == user ==> !s.rows[t].rotated
  }

  ghost predicate Safe(s: State) {
    && (forall x :: x in s.txs ==> TxOk(s, x))
    && LocksOk(s) && SnapshotsOk(s)
    && (forall u :: u in s.active && !s.active[u] ==> NoRotatedTokens(s, u))
    && s.rows.Keys <= s.used && s.exchanges.Keys <= s.used
    && (forall t :: t in s.exchanges ==> s.exchanges[t] <= 1)
    && (forall t :: t in s.rows && Exchanged(s, t) > 0 ==> s.rows[t].revoked)
  }

  lemma UserLocksStayOk(s: State, a: Action)
    requires Safe(s) && Enabled(s, a)
    ensures var t := Do(s, a);
            forall x, y, u :: x in t.txs && y in t.txs && x != y && OwnsUser(t.txs[x], u) ==>
              !OwnsUser(t.txs[y], u) && !SharesUser(t.txs[y], u)
  {
    var t := Do(s, a);
    forall x, y, u | x in t.txs && y in t.txs && x != y && OwnsUser(t.txs[x], u)
      ensures !OwnsUser(t.txs[y], u) && !SharesUser(t.txs[y], u)
    {
      OwnerIsAlone(s, a, x, y, u);
    }
  }

  lemma OwnerIsAlone(s: State, a: Action, x: TxId, y: TxId, u: Uuid)
    requires Enabled(s, a) && LocksOk(s) && x in Do(s, a).txs && y in Do(s, a).txs && x != y
             && OwnsUser(Do(s, a).txs[x], u)
    ensures !OwnsUser(Do(s, a).txs[y], u) && !SharesUser(Do(s, a).txs[y], u)
  {
    UserOwnerBefore(s, a, x, u);
    UserOwnerBefore(s, a, y, u);
  }

  /** A lock on a user row is an old one, or was free for everybody else when it was taken. */
  lemma UserOwnerBefore(s: State, a: Action, x: TxId, u: Uuid)
    requires Enabled(s, a) && x in Do(s, a).txs
    ensures OwnsUser(Do(s, a).txs[x], u) ==>
              (x in s.txs && OwnsUser(s.txs[x], u)) || (a == WriteUser(x) && UserFree(s, x, u, false))
    ensures SharesUser(Do(s, a).txs[x], u) ==>
              (x in s.txs && SharesUser(s.txs[x], u)) || (a == LockUser(x) && UserFree(s, x, u, true))
    ensures forall y :: y in Do(s, a).txs && (a == WriteUser(x) || a == LockUser(x)) && y != x ==>
              y in s.txs && Do(s, a).txs[y] == s.txs[y]
  {
  }

  lemma LocksStayOk(s: State, a: Action)
    requires Safe(s) && Enabled(s, a)
    ensures LocksOk(Do(s, a))
  {
    var t := Do(s, a);
    forall x, y, token | x in t.txs && y in t.txs && x != y && OwnsToken(t.txs[x], token)
      ensures !OwnsToken(t.txs[y], token)
    {
      TokenOwnerBefore(s, a, x, token);
      if x in s.txs && OwnsToken(s.txs[x], token) {
        LockedTokenIsNotTaken(s, a, y, token);
      }
    }
    forall x, y | x in t.txs && y in t.txs && x != y && t.txs[x].Rotation? && t.txs[y].Rotation?
      ensures t.txs[x].next != t.txs[y].next
    {
      NextTokensStayDistinct(s, a, x, y);
    }
    UserLocksStayOk(s, a);
  }

  /** A token lock is an old one, or was free for everybody else when it was taken. */
  lemma TokenOwnerBefore(s: State, a: Action, x: TxId, token: Token)
    requires Enabled(s, a) && x in Do(s, a).txs && OwnsToken(Do(s, a).txs[x], token)
    ensures (x in s.txs && OwnsToken(s.txs[x], token))
            || (TokenFree(s, x, token) && forall y :: y in Do(s, a).txs && y != x ==>
                y in s.txs && Do(s, a).txs[y] == s.txs[y])
  {
  }

  lemma LockedTokenIsNotTaken(s: State, a: Action, y: TxId, token: Token)
    requires Enabled(s, a) && y in Do(s, a).txs
    requires !(y in s.txs && OwnsToken(s.txs[y], token)) && !TokenFree(s, y, token)
    ensures !OwnsToken(Do(s, a).txs[y], token)
  {
  }

  lemma NextTokensStayDistinct(s: State, a: Action, x: TxId, y: TxId)
    requires Safe(s) && Enabled(s, a) && x in Do(s, a).txs && y in Do(s, a).txs && x != y
    requires Do(s, a).txs[x].Rotation? && Do(s, a).txs[y].Rotation?
    ensures Do(s, a).txs[x].next != Do(s, a).txs[y].next
  {
    assert x in s.txs ==> TxOk(s, x);
    assert y in s.txs ==> TxOk(s, y);
  }

  /** While a transaction holds a token's lock, nobody else changes or deletes the row. */
  lemma LockedRowStays(s: State, a: Action, x: TxId)
    requires Safe(s) && Enabled(s, a) && x in s.txs && x in Do(s, a).txs
    requires s.txs[x].Rotation? && s.txs[x].stage in {TokenLocked, Revoking, Issuing}
    ensures s.txs[x].token in Do(s, a).rows && Do(s, a).rows[s.txs[x].token] == s.rows[s.txs[x].token]
  {
    var token := s.txs[x].token;
    assert TxOk(s, x) && OwnsToken(s.txs[x], token);
    match a {
      case Commit(y) =>
        assert TxOk(s, y) && !OwnsToken(s.txs[y], token);
        assert s.txs[y].Rotation? ==> s.txs[y].next !in s.rows;
      case _ =>
    }
  }

  /** While a transaction holds a user row's lock, the flag does not change. */
  lemma LockedUserStays(s: State, a: Action, x: TxId)
    requires Safe(s) && Enabled(s, a) && x in s.txs && x in Do(s, a).txs && !s.txs[x].stage.Begun?
    ensures s.txs[x].user in Do(s, a).active
    ensures Do(s, a).active[s.txs[x].user] == s.active[s.txs[x].user]
  {
    assert TxOk(s, x);
    if a.Commit? {
      CommitSparesUser(s, a.x, x);
    } else {
      assert Do(s, a).active == s.active;
    }
  }

  lemma CommitSparesUser(s: State, y: TxId, x: TxId)
    requires Safe(s) && Enabled(s, Commit(y)) && x in s.txs && x != y && !s.txs[x].stage.Begun?
    ensures s.txs[x].user in Do(s, Commit(y)).active
    ensures Do(s, Commit(y)).active[s.txs[x].user] == s.active[s.txs[x].user]
  {
    assert TxOk(s, x) && TxOk(s, y);
    assert OwnsUser(s.txs[x], s.txs[x].user) || SharesUser(s.txs[x], s.txs[x].user);
  }

  /** A row of a snapshot that is gone stays gone. */
  lemma GoneStaysGone(s: State, a: Action, x: TxId, k: Token)
    requires Safe(s) && Enabled(s, a) && x in s.txs && k in s.txs[x].seen && k in Do(s, a).rows
    ensures k in s.rows && s.rows[k].user == Do(s, a).rows[k].user
  {
    assert TxOk(s, x);
  }

  /** A doomed row stays until its own transaction deletes it. */
  lemma DoomedStays(s: State, a: Action, x: TxId, k: Token)
    requires Safe(s) && Enabled(s, a) && x in s.txs && x in Do(s, a).txs && k in s.txs[x].doomed && k in s.rows
    ensures k in Do(s, a).rows
  {
    if a.Commit? {
      assert OwnsToken(s.txs[x], k) && !OwnsToken(s.txs[a.x], k);
    }
  }

  lemma DoomedStaysExact(s: State, a: Action, x: TxId)
    requires Safe(s) && Enabled(s, a) && x in s.txs && x in Do(s, a).txs && s.txs[x].stage in {Wiping, Deleted}
    ensures s.txs[x].doomed == s.txs[x].seen * Do(s, a).rows.Keys
  {
    assert TxOk(s, x);
    forall k | k in s.txs[x].seen ensures k in s.rows <==> k in Do(s, a).rows {
      if k in s.rows {
        DoomedStays(s, a, x, k);
      } else if k in Do(s, a).rows {
        GoneStaysGone(s, a, x, k);
      }
    }
  }

  /** No rotation commits a token for a user whose row an update holds. */
  lemma CommitAddsNoneTo(s: State, a: Action, x: TxId, t: Token)
    requires Safe(s) && Enabled(s, a) && x in s.txs && x in Do(s, a).txs && OwnsUser(s.txs[x], s.txs[x].user)
    requires t in Do(s, a).rows && Do(s, a).rows[t].user == s.txs[x].user && Do(s, a).rows[t].rotated
    ensures t in s.rows && s.rows[t].user == s.txs[x].user && s.rows[t].rotated
  {
    if a.Commit? {
      OthersCommitNone(s, a.x, x, t);
    }
  }

  lemma OthersCommitNone(s: State, y: TxId, x: TxId, t: Token)
    requires Safe(s) && Enabled(s, Commit(y)) && x in s.txs && y != x && OwnsUser(s.txs[x], s.txs[x].user)
    requires t in Do(s, Commit(y)).rows
    requires Do(s, Commit(y)).rows[t].user == s.txs[x].user && Do(s, Commit(y)).rows[t].rotated
    ensures t in s.rows && s.rows[t].user == s.txs[x].user && s.rows[t].rotated
  {
    assert TxOk(s, y);
    assert !SharesUser(s.txs[y], s.txs[x].user);
  }

  lemma SeenStaysComplete(s: State, a: Action, x: TxId)
    requires Safe(s) && Enabled(s, a) && x in s.txs && x in Do(s, a).txs
    requires s.txs[x].Update? && s.txs[x].stage in {Waiting, Deleted}
    ensures forall t :: t in Do(s, a).rows && Do(s, a).rows[t].user == s.txs[x].user && Do(s, a).rows[t].rotated ==>
              t in s.txs[x].seen
  {
    assert TxOk(s, x);
    forall t | t in Do(s, a).rows && Do(s, a).rows[t].user == s.txs[x].user && Do(s, a).rows[t].rotated
      ensures t in s.txs[x].seen
    {
      CommitAddsNoneTo(s, a, x, t);
    }
  }

  /** The transaction itself takes its snapshot, or goes through it. */
  predicate Wipes(a: Action, x: TxId) {
    a == Wipe(x) || a == DeleteTokens(x) || a == Sweep(x)
  }

  lemma OthersKeepSnapshot(s: State, a: Action, x: TxId)
    requires Enabled(s, a) && x in s.txs && x in Do(s, a).txs && !Wipes(a, x)
    ensures var tx := s.txs[x]; var after := Do(s, a).txs[x];
            && after.seen == tx.seen && after.doomed == tx.doomed && after.user == tx.user
            && (tx.Update? <==> after.Update?)
            && (after.stage in {Waiting, Wiping, Deleted} ==> after.stage == tx.stage)
            && s.used <= Do(s, a).used
  {
  }

  lemma WipeMovesOn(s: State, a: Action, x: TxId)
    requires Safe(s) && Enabled(s, a) && x in s.txs && Wipes(a, x)
    ensures WipeOk(Do(s, a), Do(s, a).txs[x])
  {
    assert TxOk(s, x);
  }

  lemma WipeStaysOk(s: State, a: Action, x: TxId)
    requires Safe(s) && Enabled(s, a) && x in s.txs && x in Do(s, a).txs
    ensures WipeOk(Do(s, a), Do(s, a).txs[x])
  {
    if Wipes(a, x) {
      WipeMovesOn(s, a, x);
    } else {
      assert TxOk(s, x);
      OthersKeepSnapshot(s, a, x);
      forall k | k in s.txs[x].seen && k in Do(s, a).rows ensures Do(s, a).rows[k].user == s.txs[x].user {
        GoneStaysGone(s, a, x, k);
      }
      if s.txs[x].stage in {Wiping, Deleted} {
        DoomedStaysExact(s, a, x);
      }
      if s.txs[x].Update? && s.txs[x].stage in {Waiting, Deleted} {
        SeenStaysComplete(s, a, x);
      }
    }
  }

  lemma SnapshotsStayOk(s: State, a: Action)
    requires Safe(s) && Enabled(s, a)
    ensures SnapshotsOk(Do(s, a))
  {
    forall x, y | x in Do(s, a).txs && y in Do(s, a).txs && Do(s, a).txs[y].Rotation?
      ensures Do(s, a).txs[y].next !in Do(s, a).txs[x].seen
    {
      NextStaysUnseen(s, a, x, y);
    }
  }

  lemma NextStaysUnseen(s: State, a: Action, x: TxId, y: TxId)
    requires Safe(s) && Enabled(s, a) && x in Do(s, a).txs && y in Do(s, a).txs && Do(s, a).txs[y].Rotation?
    ensures Do(s, a).txs[y].next !in Do(s, a).txs[x].seen
  {
    assert x in s.txs ==> TxOk(s, x);
    assert y in s.txs ==> TxOk(s, y);
  }

  lemma FreshTokensStayApart(s: State, a: Action, x: TxId)
    requires Safe(s) && Enabled(s, a) && x in s.txs && x in Do(s, a).txs && s.txs[x].Rotation?
    ensures s.txs[x].next !in Do(s, a).rows && s.txs[x].next !in Do(s, a).exchanges
  {
    assert TxOk(s, x);
    if a.Commit? {
      assert TxOk(s, a.x);
    }
  }

  lemma TxStaysOk(s: State, a: Action, x: TxId)
    requires Safe(s) && Enabled(s, a) && x in Do(s, a).txs
    ensures TxOk(Do(s, a), x)
  {
    if x in s.txs {
      WipeStaysOk(s, a, x);
      if s.txs[x].Rotation? {
        RotationStaysOk(s, a, x);
      } else {
        UpdateStaysOk(s, a, x);
      }
    }
  }

  lemma UpdateStaysOk(s: State, a: Action, x: TxId)
    requires Safe(s) && Enabled(s, a) && x in s.txs && x in Do(s, a).txs && s.txs[x].Update?
    requires WipeOk(Do(s, a), Do(s, a).txs[x])
    ensures TxOk(Do(s, a), x)
  {
    assert TxOk(s, x);
    if !s.txs[x].stage.Begun? {
      LockedUserStays(s, a, x);
    }
  }

  lemma RotationStaysOk(s: State, a: Action, x: TxId)
    requires Safe(s) && Enabled(s, a) && x in s.txs && x in Do(s, a).txs && s.txs[x].Rotation?
    requires WipeOk(Do(s, a), Do(s, a).txs[x])
    ensures TxOk(Do(s, a), x)
  {
    assert TxOk(s, x);
    if !s.txs[x].stage.Begun? {
      LockedUserStays(s, a, x);
    }
    FreshTokensStayApart(s, a, x);
    if s.txs[x].stage in {TokenLocked, Revoking, Issuing} {
      LockedRowStays(s, a, x);
    }
  }

  lemma RotatedTokensStayGone(s: State, a: Action, user: Uuid)
    requires Safe(s) && Enabled(s, a) && user in Do(s, a).active && !Do(s, a).active[user]
    ensures NoRotatedTokens(Do(s, a), user)
  {
    if a.Commit? {
      assert TxOk(s, a.x);
    }
  }

  lemma ExchangesStayOk(s: State, a: Action)
    requires Safe(s) && Enabled(s, a)
    ensures var t := Do(s, a);
            && t.rows.Keys <= t.used && t.exchanges.Keys <= t.used
            && (forall k :: k in t.exchanges ==> t.exchanges[k] <= 1)
            && (forall k :: k in t.rows && Exchanged(t, k) > 0 ==> t.rows[k].revoked)
  {
    if a.Commit? {
      assert TxOk(s, a.x);
    }
  }

  lemma SafeStep(s: State, a: Action)
    requires Safe(s) && Enabled(s, a)
    ensures Safe(Do(s, a))
  {
    forall x | x in Do(s, a).txs ensures TxOk(Do(s, a), x) {
      TxStaysOk(s, a, x);
    }
    LocksStayOk(s, a);
    SnapshotsStayOk(s, a);
    forall u | u in Do(s, a).active && !Do(s, a).active[u] ensures NoRotatedTokens(Do(s, a), u) {
      RotatedTokensStayGone(s, a, u);
    }
    ExchangesStayOk(s, a);
  }

  // -------------------------------------------------------------------- runs

  ghost predicate Run(s: State, acts: seq<Action>)
    decreases |acts|
  {
    acts == [] || (Enabled(s, acts[0]) && Run(Do(s, acts[0]), acts[1..]))
  }

  ghost function After(s: State, acts: seq<Action>): State
    requires Run(s, acts)
    decreases |acts|
  {
    if acts == [] then s else After(Do(s, acts[0]), acts[1..])
  }

  /**
   * In no schedule does a token that a rotation issued survive a committed deactivation, and no
   * token is exchanged twice, however rotations of it interleave.
   */
  lemma {:induction false} DeactivationLeavesNoRotatedToken(s: State, acts: seq<Action>)
    requires Safe(s) && Run(s, acts)
    ensures Safe(After(s, acts))
    ensures forall t :: t in After(s, acts).rows && After(s, acts).rows[t].rotated
                        && After(s, acts).rows[t].user in After(s, acts).active ==>
              After(s, acts).active[After(s, acts).rows[t].user]
    ensures forall t :: Exchanged(After(s, acts), t) <= 1
    decreases |acts|
  {
    if acts != [] {
      SafeStep(s, acts[0]);
      DeactivationLeavesNoRotatedToken(Do(s, acts[0]), acts[1..]);
    }
  }

  /** Until reactivation no rotation succeeds: one that commits an exchange finds the flag set. */
  lemma NoRotationWhileInactive(s0: State, acts: seq<Action>, a: Action, token: Token)
    requires Init(s0) && Run(s0, acts) && Enabled(After(s0, acts), a)
    requires Exchanged(Do(After(s0, acts), a), token) > Exchanged(After(s0, acts), token)
    ensures var s := After(s0, acts);
            && a.Commit? && a.x in s.txs && s.txs[a.x].Rotation?
            && s.txs[a.x].user in s.active && s.active[s.txs[a.x].user]
            && Do(s, a).active == s.active
  {
    DeactivationLeavesNoRotatedToken(s0, acts);
    assert a.Commit?;
    assert TxOk(After(s0, acts), a.x);
  }

  // --------------------------------------------------- what a deletion misses

  /** The transaction neither commits nor aborts along `acts`. */
  predicate StaysOpen(acts: seq<Action>, x: TxId) {
    forall a :: a in acts ==> a != Commit(x) && a != Abort(x)
  }

  lemma {:induction false} SnapshotIsKept(s: State, acts: seq<Action>, x: TxId)
    requires Safe(s) && Run(s, acts) && StaysOpen(acts, x)
    requires x in s.txs && s.txs[x].stage in {Waiting, Wiping, Deleted}
    ensures Safe(After(s, acts)) && x in After(s, acts).txs
    ensures After(s, acts).txs[x].seen == s.txs[x].seen && After(s, acts).txs[x].user == s.txs[x].user
    decreases |acts|
  {
    if acts != [] {
      assert acts[0] in acts && forall a :: a in acts[1..] ==> a in acts;
      SafeStep(s, acts[0]);
      SnapshotStep(s, acts[0], x);
      SnapshotIsKept(Do(s, acts[0]), acts[1..], x);
    }
  }

  lemma SnapshotStep(s: State, a: Action, x: TxId)
    requires Safe(s) && Enabled(s, a) && a != Commit(x) && a != Abort(x)
    requires x in s.txs && s.txs[x].stage in {Waiting, Wiping, Deleted}
    ensures x in Do(s, a).txs && Do(s, a).txs[x].stage in {Waiting, Wiping, Deleted}
    ensures Do(s, a).txs[x].seen == s.txs[x].seen && Do(s, a).txs[x].user == s.txs[x].user
  {
    if a != Sweep(x) {
      WaitingStays(s, a, x);
    }
  }

  lemma WaitingStays(s: State, a: Action, x: TxId)
    requires Enabled(s, a) && a != Commit(x) && a != Abort(x) && a != Sweep(x)
    requires x in s.txs && s.txs[x].stage in {Waiting, Wiping, Deleted}
    ensures x in Do(s, a).txs && Do(s, a).txs[x] == s.txs[x]
  {
  }

  lemma CommittedWipe(s: State, x: TxId, user: Uuid)
    requires Safe(s) && x in s.txs && s.txs[x].stage in {Wiping, Deleted}
    ensures TokensOf(Do(s, Commit(x)), user) == TokensOf(s, user) - if user == s.txs[x].user then s.txs[x].seen else {}
  {
    assert TxOk(s, x);
    assert Do(s, Commit(x)).rows == s.rows - s.txs[x].doomed;
  }

  /**
   * What `end_all` leaves behind, exactly: after its commit a user's rows are those that came after
   * the statement's snapshot, however long it waited. No other user loses a row.
   */
  lemma EndAllTakesItsSnapshot(s: State, a: Action, acts: seq<Action>, x: TxId, user: Uuid)
    requires Safe(s) && Enabled(s, a) && (a == Wipe(x) || a == DeleteTokens(x))
    requires Run(Do(s, a), acts) && StaysOpen(acts, x)
    requires x in After(Do(s, a), acts).txs && After(Do(s, a), acts).txs[x].stage in {Wiping, Deleted}
    ensures var before := After(Do(s, a), acts); var after := Do(before, Commit(x));
            TokensOf(after, user) == TokensOf(before, user) - if user == s.txs[x].user then TokensOf(s, user) else {}
  {
    SafeStep(s, a);
    SnapshotIsKept(Do(s, a), acts, x);
    CommittedWipe(After(Do(s, a), acts), x, user);
  }

  /** An update's misses none that a rotation issued. */
  lemma UpdateMissesNoRotation(s: State, x: TxId)
    requires Safe(s) && Enabled(s, Commit(x)) && s.txs[x].Update? && s.txs[x].endAll
    ensures NoRotatedTokens(Do(s, Commit(x)), s.txs[x].user)
  {
    assert TxOk(s, x);
  }

  lemma {:induction false} Extend(s: State, acts: seq<Action>, a: Action)
    requires Run(s, acts) && Enabled(After(s, acts), a)
    ensures Run(s, acts + [a]) && After(s, acts + [a]) == Do(After(s, acts), a)
    decreases |acts|
  {
    if acts == [] {
      assert acts + [a] == [a] && Run(Do(s, a), []);
    } else {
      Extend(Do(s, acts[0]), acts[1..], a);
      assert (acts + [a])[1..] == acts[1..] + [a];
    }
  }

  /** `acts` leads from `s` to `t`. */
  ghost predicate Reaches(s: State, acts: seq<Action>, t: State) {
    Run(s, acts) && After(s, acts) == t
  }

  lemma Onward(s: State, acts: seq<Action>, t: State, a: Action)
    requires Reaches(s, acts, t) && Enabled(t, a)
    ensures Reaches(s, acts + [a], Do(t, a))
  {
    Extend(s, acts, a);
  }

  /** A user with a used token, a live one and nothing under way; `next` and `spare` are unused. */
  predicate Quiet(s: State, user: Uuid, spent: Token, cur: Token, next: Token, spare: Token) {
    && s.txs == map[] && user in s.active && s.active[user]
    && spent in s.rows && s.rows[spent] == Row(user, s.rows[spent].rotated, true)
    && cur in s.rows && s.rows[cur] == Row(user, s.rows[cur].rotated, false)
    && next !in s.used && spare !in s.used && next != spare && s.rows.Keys <= s.used
  }

  /** The used token is presented: transaction 0 has found it revoked. */
  function Replaying(s: State, user: Uuid, spent: Token, spare: Token): State {
    s.(txs := map[0 := Rotation(user, spent, spare, TokenLocked, true, true, {}, {})], used := s.used + {spent, spare})
  }

  /** The live one is being rotated, too: transaction 1 has issued its successor. */
  function Rotating(s: State, user: Uuid, spent: Token, cur: Token, next: Token, spare: Token): State {
    var t := Replaying(s, user, spent, spare);
    t.(txs := t.txs[1 := Rotation(user, cur, next, Issuing, true, false, {}, {})], used := t.used + {cur, next})
  }

  function Replay(user: Uuid, spent: Token, spare: Token): seq<Action> {
    [BeginRotation(0, user, spent, spare)] + [LockUser(0)] + [LockToken(0)]
  }

  function Rotate(user: Uuid, cur: Token, next: Token): seq<Action> {
    [BeginRotation(1, user, cur, next)] + [LockUser(1)] + [LockToken(1)] + [Revoke(1)] + [Issue(1)]
  }

  lemma ReplayRuns(s: State, user: Uuid, spent: Token, cur: Token, next: Token, spare: Token)
    requires Quiet(s, user, spent, cur, next, spare)
    ensures Reaches(s, Replay(user, spent, spare), Replaying(s, user, spent, spare))
  {
    var begin := BeginRotation(0, user, spent, spare);
    assert [] + [begin] == [begin];
    Onward(s, [], s, begin);
    var s1 := Do(s, begin);
    Onward(s, [begin], s1, LockUser(0));
    var s2 := Do(s1, LockUser(0));
    Onward(s, [begin] + [LockUser(0)], s2, LockToken(0));
    assert Do(s2, LockToken(0)).txs == Replaying(s, user, spent, spare).txs;
  }

  lemma RotateRuns(s: State, user: Uuid, spent: Token, cur: Token, next: Token, spare: Token)
    requires Quiet(s, user, spent, cur, next, spare)
    ensures Reaches(Replaying(s, user, spent, spare), Rotate(user, cur, next),
            Rotating(s, user, spent, cur, next, spare))
  {
    var r := Replaying(s, user, spent, spare);
    var begin := BeginRotation(1, user, cur, next);
    var t := LiveTokenLocked(s, user, spent, cur, next, spare);
    Onward(r, [begin] + [LockUser(1)] + [LockToken(1)], t, Revoke(1));
    var t1 := Do(t, Revoke(1));
    Onward(r, [begin] + [LockUser(1)] + [LockToken(1)] + [Revoke(1)], t1, Issue(1));
    assert Do(t1, Issue(1)).txs == Rotating(s, user, spent, cur, next, spare).txs;
  }

  lemma LiveTokenLocked(s: State, user: Uuid, spent: Token, cur: Token, next: Token, spare: Token) returns (t: State)
    requires Quiet(s, user, spent, cur, next, spare)
    ensures var r := Replaying(s, user, spent, spare);
            && t == r.(txs := r.txs[1 := Rotation(user, cur, next, TokenLocked, true, false, {}, {})],
                used := r.used + {cur, next})
            && Reaches(r, [BeginRotation(1, user, cur, next)] + [LockUser(1)] + [LockToken(1)], t)
  {
    var r := Replaying(s, user, spent, spare);
    var begin := BeginRotation(1, user, cur, next);
    assert [] + [begin] == [begin];
    Onward(r, [], r, begin);
    var r1 := Do(r, begin);
    Onward(r, [begin], r1, LockUser(1));
    var r2 := Do(r1, LockUser(1));
    Onward(r, [begin] + [LockUser(1)], r2, LockToken(1));
    t := Do(r2, LockToken(1));
    assert t.txs == r.txs[1 := Rotation(user, cur, next, TokenLocked, true, false, {}, {})];
  }

  /** The deletion's snapshot is taken; the rotation commits before it gets any further. */
  lemma SnapshotThenCommit(s: State, user: Uuid, spent: Token, cur: Token, next: Token, spare: Token) returns (t: State)
    requires Quiet(s, user, spent, cur, next, spare)
    ensures Reaches(Rotating(s, user, spent, cur, next, spare), [Wipe(0)] + [Commit(1)], t)
    ensures t.txs == map[0 := Rotation(user, spent, spare, Waiting, true, true, TokensOf(s, user), {})]
    ensures t.rows == s.rows[cur := s.rows[cur].(revoked := true)][next := Row(user, true, false)]
  {
    var r := Rotating(s, user, spent, cur, next, spare);
    assert [] + [Wipe(0)] == [Wipe(0)];
    Onward(r, [], r, Wipe(0));
    var r1 := Do(r, Wipe(0));
    Onward(r, [Wipe(0)], r1, Commit(1));
    t := Do(r1, Commit(1));
    assert TokensOf(r, user) == TokensOf(s, user);
    assert t.txs == map[0 := Rotation(user, spent, spare, Waiting, true, true, TokensOf(s, user), {})];
  }

  lemma SweepThenCommit(s: State) returns (t: State)
    requires s.txs.Keys == {0} && At(s, 0, Waiting) && s.txs[0].Rotation?
    ensures Enabled(s, Sweep(0)) && Enabled(Do(s, Sweep(0)), Commit(0))
    ensures t == Do(Do(s, Sweep(0)), Commit(0)) && t.rows == s.rows - s.txs[0].seen
  {
    t := Do(Do(s, Sweep(0)), Commit(0));
  }

  /** The deletion waits for the live token's row; the rotation commits; the deletion goes on. */
  lemma WipeRuns(s: State, user: Uuid, spent: Token, cur: Token, next: Token, spare: Token) returns (t: State)
    requires Quiet(s, user, spent, cur, next, spare)
    ensures Reaches(Rotating(s, user, spent, cur, next, spare), [Wipe(0)] + [Commit(1)] + [Sweep(0)] + [Commit(0)], t)
    ensures next in t.rows && t.rows[next] == Row(user, true, false) && TokensOf(t, user) == {next}
  {
    var r := Rotating(s, user, spent, cur, next, spare);
    var u := SnapshotThenCommit(s, user, spent, cur, next, spare);
    t := SweepThenCommit(u);
    Onward(r, [Wipe(0)] + [Commit(1)], u, Sweep(0));
    Onward(r, [Wipe(0)] + [Commit(1)] + [Sweep(0)], Do(u, Sweep(0)), Commit(0));
  }

  /**
   * So a replayed token does not always end the family: while its deletion waits for a live token's
   * row, the rotation holding that row commits, and the token it issued survives, unrevoked.
   */
  lemma ReuseMissesALateRotation(s: State, user: Uuid, spent: Token, cur: Token, next: Token, spare: Token)
    requires Quiet(s, user, spent, cur, next, spare)
    ensures var acts := Replay(user, spent, spare) + Rotate(user, cur, next)
                        + ([Wipe(0)] + [Commit(1)] + [Sweep(0)] + [Commit(0)]);
            && Run(s, acts) && TokensOf(After(s, acts), user) == {next}
            && next in After(s, acts).rows && After(s, acts).rows[next] == Row(user, true, false)
  {
    ReplayRuns(s, user, spent, cur, next, spare);
    RotateRuns(s, user, spent, cur, next, spare);
    var t := WipeRuns(s, user, spent, cur, next, spare);
    RunConcat(s, Replay(user, spent, spare), Rotate(user, cur, next));
    RunConcat(s, Replay(user, spent, spare) + Rotate(user, cur, next),
        [Wipe(0)] + [Commit(1)] + [Sweep(0)] + [Commit(0)]);
  }

  lemma {:induction false} RunConcat(s: State, a: seq<Action>, b: seq<Action>)
    requires Run(s, a) && Run(After(s, a), b)
    ensures Run(s, a + b) && After(s, a + b) == After(After(s, a), b)
    decreases |a|
  {
    if a == [] {
      assert a + b == b;
    } else {
      RunConcat(Do(s, a[0]), a[1..], b);
      OneMore(s, a[0], a[1..] + b);
      assert a + b == [a[0]] + (a[1..] + b);
    }
  }

  lemma OneMore(s: State, a: Action, acts: seq<Action>)
    requires Enabled(s, a) && Run(Do(s, a), acts)
    ensures Run(s, [a] + acts) && After(s, [a] + acts) == After(Do(s, a), acts)
  {
    assert ([a] + acts)[1..] == acts;
  }

  // ----------------------------------------------------------- served alone

  ghost predicate Alone(s: State, user: Uuid) {
    s.txs == map[] && user in s.active && s.rows.Keys <= s.used
  }

  /** The statements of a rotation: its locks, then by what it finds the exchange or the end of the family. */
  function RotationSteps(s: State, x: TxId, user: Uuid, token: Token, next: Token): seq<Action>
    requires user in s.active && token in s.rows
  {
    [BeginRotation(x, user, token, next)] + [LockUser(x)] + [LockToken(x)]
    + (if s.rows[token].revoked then [Wipe(x)] + [Sweep(x)]
       else if s.active[user] then [Revoke(x)] + [Issue(x)]
       else [Revoke(x)] + [Wipe(x)] + [Sweep(x)])
    + [Commit(x)]
  }

  function Locked(s: State, x: TxId, user: Uuid, token: Token, next: Token, stage: Stage): State
    requires user in s.active && token in s.rows
  {
    s.(txs := map[x := Rotation(user, token, next, stage, s.active[user], s.rows[token].revoked, {}, {})],
       used := s.used + {token, next})
  }

  lemma LocksRun(s: State, x: TxId, user: Uuid, token: Token, next: Token)
    requires Alone(s, user) && token in s.rows && s.rows[token].user == user && next !in s.used
    ensures Reaches(s, [BeginRotation(x, user, token, next)] + [LockUser(x)] + [LockToken(x)],
                    Locked(s, x, user, token, next, TokenLocked))
  {
    var begin := BeginRotation(x, user, token, next);
    assert [] + [begin] == [begin];
    Onward(s, [], s, begin);
    var s1 := Do(s, begin);
    Onward(s, [begin], s1, LockUser(x));
    var s2 := Do(s1, LockUser(x));
    Onward(s, [begin] + [LockUser(x)], s2, LockToken(x));
    assert Do(s2, LockToken(x)).txs == Locked(s, x, user, token, next, TokenLocked).txs;
  }

  /** With nobody else about, a deletion removes the user's rows, all of them and no others. */
  lemma DeletionRuns(s: State, x: TxId, a: Action)
    requires s.txs.Keys == {x} && (a == Wipe(x) || a == DeleteTokens(x)) && Enabled(s, a)
    ensures Reaches(s, [a] + [Sweep(x)] + [Commit(x)], Emptied(s, x))
  {
    var tokens := TokensOf(s, s.txs[x].user);
    var s1 := s.(txs := map[x := s.txs[x].(stage := Waiting, seen := tokens)]);
    assert Do(s, a).txs == s1.txs;
    assert [] + [a] == [a];
    Onward(s, [], s, a);
    SweepAlone(s1, x);
    Onward(s, [a], s1, Sweep(x));
    Onward(s, [a] + [Sweep(x)], Do(s1, Sweep(x)), Commit(x));
  }

  lemma SweepAlone(s: State, x: TxId)
    requires s.txs.Keys == {x} && At(s, x, Waiting) && s.txs[x].seen == TokensOf(s, s.txs[x].user)
    ensures Enabled(s, Sweep(x)) && Enabled(Do(s, Sweep(x)), Commit(x))
    ensures Do(Do(s, Sweep(x)), Commit(x)) == Emptied(s, x)
  {
    var t := Do(s, Sweep(x));
    assert t.txs[x].doomed == TokensOf(s, s.txs[x].user);
    assert Do(t, Commit(x)).txs == map[];
  }

  function Emptied(s: State, x: TxId): State
    requires x in s.txs
  {
    var tx := s.txs[x];
    s.(txs := map[], rows := s.rows - TokensOf(s, tx.user),
       active := if tx.Update? && tx.target.Some? then s.active[tx.user := tx.target.value] else s.active)
  }

  lemma Joined(s: State, a: seq<Action>, t: State, b: seq<Action>, u: State)
    requires Reaches(s, a, t) && Reaches(t, b, u)
    ensures Reaches(s, a + b, u)
  {
    RunConcat(s, a, b);
  }

  /**
   * A rotation served alone: a live token of an active account is exchanged for `next`; a used one,
   * or anyone's once the account is inactive, ends every session of its user and of nobody else.
   */
  lemma RotationIsARun(s: State, x: TxId, user: Uuid, token: Token, next: Token)
    requires Alone(s, user) && token in s.rows && s.rows[token].user == user && next !in s.used
    ensures var acts := RotationSteps(s, x, user, token, next);
            && Run(s, acts) && After(s, acts).txs == map[] && After(s, acts).active == s.active
            && After(s, acts).rows
               == if !s.rows[token].revoked && s.active[user]
                  then s.rows[token := Row(user, s.rows[token].rotated, true)][next := Row(user, true, false)]
                  else map t | t in s.rows && s.rows[t].user != user :: s.rows[t]
  {
    LocksRun(s, x, user, token, next);
    var locks := [BeginRotation(x, user, token, next)] + [LockUser(x)] + [LockToken(x)];
    var t := Locked(s, x, user, token, next, TokenLocked);
    if s.rows[token].revoked {
      DeletionRuns(t, x, Wipe(x));
      Joined(s, locks, t, [Wipe(x)] + [Sweep(x)] + [Commit(x)], Emptied(t, x));
      assert locks + ([Wipe(x)] + [Sweep(x)] + [Commit(x)]) == RotationSteps(s, x, user, token, next);
    } else {
      var revoked := Locked(s, x, user, token, next, Revoking);
      assert Do(t, Revoke(x)).txs == revoked.txs;
      Onward(s, locks, t, Revoke(x));
      if s.active[user] {
        ExchangeRuns(s, x, user, token, next);
        Joined(s, locks + [Revoke(x)], revoked, [Issue(x)] + [Commit(x)], After(revoked, [Issue(x)] + [Commit(x)]));
        assert locks + [Revoke(x)] + ([Issue(x)] + [Commit(x)]) == RotationSteps(s, x, user, token, next);
      } else {
        DeletionRuns(revoked, x, Wipe(x));
        Joined(s, locks + [Revoke(x)], revoked, [Wipe(x)] + [Sweep(x)] + [Commit(x)], Emptied(revoked, x));
        assert locks + [Revoke(x)] + ([Wipe(x)] + [Sweep(x)] + [Commit(x)]) == RotationSteps(s, x, user, token, next);
      }
    }
  }

  lemma ExchangeRuns(s: State, x: TxId, user: Uuid, token: Token, next: Token)
    requires Alone(s, user) && token in s.rows && s.rows[token].user == user && next !in s.used
    requires !s.rows[token].revoked && s.active[user]
    ensures var t := Locked(s, x, user, token, next, Revoking); var acts := [Issue(x)] + [Commit(x)];
            && Run(t, acts) && After(t, acts).txs == map[] && After(t, acts).active == s.active
            && After(t, acts).rows
               == s.rows[token := Row(user, s.rows[token].rotated, true)][next := Row(user, true, false)]
  {
    var t := Locked(s, x, user, token, next, Revoking);
    assert [] + [Issue(x)] == [Issue(x)];
    Onward(t, [], t, Issue(x));
    Onward(t, [Issue(x)], Do(t, Issue(x)), Commit(x));
  }

  /** The statements of an update of an account that ends its sessions. */
  function UpdateSteps(x: TxId, user: Uuid, target: Option<bool>): seq<Action> {
    [BeginUpdate(x, user, target, true)] + [WriteUser(x)] + ([DeleteTokens(x)] + [Sweep(x)] + [Commit(x)])
  }

  /** A deactivation or a password reset served alone: the flag is set and the user's sessions, no others, are gone. */
  lemma UpdateIsARun(s: State, x: TxId, user: Uuid, target: Option<bool>)
    requires Alone(s, user)
    ensures var acts := UpdateSteps(x, user, target);
            && Run(s, acts) && After(s, acts).txs == map[]
            && After(s, acts).active == (if target.Some? then s.active[user := target.value] else s.active)
            && After(s, acts).rows == map t | t in s.rows && s.rows[t].user != user :: s.rows[t]
  {
    var t := WriteRuns(s, x, user, target);
    DeletionRuns(t, x, DeleteTokens(x));
    Joined(s, [BeginUpdate(x, user, target, true)] + [WriteUser(x)], t,
           [DeleteTokens(x)] + [Sweep(x)] + [Commit(x)], Emptied(t, x));
  }

  lemma WriteRuns(s: State, x: TxId, user: Uuid, target: Option<bool>) returns (t: State)
    requires Alone(s, user)
    ensures t == s.(txs := map[x := Update(user, target, true, Updated, {}, {})])
    ensures Reaches(s, [BeginUpdate(x, user, target, true)] + [WriteUser(x)], t)
  {
    var begin := BeginUpdate(x, user, target, true);
    assert [] + [begin] == [begin];
    Onward(s, [], s, begin);
    Onward(s, [begin], Do(s, begin), WriteUser(x));
    t := Do(Do(s, begin), WriteUser(x));
    assert t.txs == map[x := Update(user, target, true, Updated, {}, {})];
  }

  /** A token a login stores can be exchanged at once; once logged out, presenting it ends the family instead. */
  lemma LoginAndLogout(s: State, x: TxId, user: Uuid, token: Token, next: Token)
    requires Alone(s, user) && s.active[user] && token !in s.used && next !in s.used && token != next
    ensures Enabled(s, Login(user, token)) && Enabled(Do(s, Login(user, token)), Logout(token))
    ensures var t := Do(s, Login(user, token));
            && Run(t, RotationSteps(t, x, user, token, next))
            && TokensOf(After(t, RotationSteps(t, x, user, token, next)), user) == TokensOf(s, user) + {token, next}
    ensures var t := Do(Do(s, Login(user, token)), Logout(token));
            && Run(t, RotationSteps(t, x, user, token, next))
            && TokensOf(After(t, RotationSteps(t, x, user, token, next)), user) == {}
  {
    var t := Do(s, Login(user, token));
    RotationIsARun(t, x, user, token, next);
    RotationIsARun(Do(t, Logout(token)), x, user, token, next);
  }
}
