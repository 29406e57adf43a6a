/** The hourly purge of expired refresh tokens cannot be observed, and exactly where it could be. */
module PurgeInvisible {
  import opened Common
  import opened Sessions

  /** `p` is `s` after some expired rows were purged on the way. */
  ghost predicate Twins(s: State, p: State) {
    && p.now == s.now && p.issued == s.issued
    && p.db.lifetime == s.db.lifetime && p.db.active == s.db.active
    && (forall t :: t in p.db.rows ==> t in s.db.rows && p.db.rows[t] == s.db.rows[t])
    && (forall t :: t in s.db.rows && t !in p.db.rows ==> s.db.rows[t].expiresAt < s.now)
  }

  /** The validator still accepts the token although its expiry has passed. */
  predicate InLeeway(s: State, token: Token) {
    Valid(s, token) && token.exp * SECOND < s.now
  }

  /** The request presents no token inside the validator's leeway. */
  predicate Punctual(s: State, a: Action) {
    a.Rotate? ==> !InLeeway(s, a.token)
  }

  function Unexpired(rows: Rows, now: nat): Rows {
    map t | t in rows && now <= rows[t].expiresAt :: rows[t]
  }

  lemma TwinsAgree(s: State, p: State)
    requires Twins(s, p)
    ensures Unexpired(s.db.rows, s.now) == Unexpired(p.db.rows, p.now)
  {
  }

  lemma TwinsEnable(s: State, p: State, a: Action)
    requires Twins(s, p)
    ensures Enabled(s, a) <==> Enabled(p, a)
  {
  }

  /** Away from the leeway a token's row cannot have been purged, so both sides find the same. */
  lemma SameLookup(s: State, p: State, token: Token)
    requires Safe(s) && Twins(s, p) && !InLeeway(s, token) && Valid(s, token)
    ensures token in s.db.rows <==> token in p.db.rows
  {
    if token in s.db.rows {
      assert RowOk(s, token);
    }
  }

  lemma TwinsRotate(s: State, p: State, token: Token, jti: nat, signedAt: nat)
    requires Safe(s) && Twins(s, p) && Enabled(s, Rotate(token, jti, signedAt))
             && Enabled(p, Rotate(token, jti, signedAt))
    requires Valid(s, token) ==> (token in s.db.rows <==> token in p.db.rows)
    ensures Respond(p, Rotate(token, jti, signedAt)) == Respond(s, Rotate(token, jti, signedAt))
    ensures Twins(Do(s, Rotate(token, jti, signedAt)), Do(p, Rotate(token, jti, signedAt)))
  {
    RotateOutcome(s, token, jti, signedAt);
    RotateOutcome(p, token, jti, signedAt);
  }

  lemma TwinsStep(s: State, p: State, a: Action)
    requires Safe(s) && Twins(s, p) && Enabled(s, a) && Enabled(p, a) && !a.Purge? && Punctual(s, a)
    ensures Respond(p, a) == Respond(s, a)
    ensures Twins(Do(s, a), Do(p, a))
  {
    if a.Rotate? {
      if Valid(s, a.token) {
        SameLookup(s, p, a.token);
      }
      TwinsRotate(s, p, a.token, a.jti, a.signedAt);
    }
  }

  lemma PurgeKeepsTwins(s: State, p: State)
    requires Twins(s, p)
    ensures Twins(s, Do(p, Purge))
  {
  }

  // -------------------------------------------------------------------- runs

  ghost predicate PunctualRun(s: State, acts: seq<Action>)
    requires Run(s, acts)
    decreases |acts|
  {
    acts != [] ==> Punctual(s, acts[0]) && PunctualRun(Do(s, acts[0]), acts[1..])
  }

  function WithoutPurges(acts: seq<Action>): seq<Action> {
    if acts == [] then []
    else (if acts[0].Purge? then [] else [acts[0]]) + WithoutPurges(acts[1..])
  }

  /** What the clients get to see, in order. */
  ghost function Responses(s: State, acts: seq<Action>): seq<Response>
    requires Run(s, acts)
    decreases |acts|
  {
    if acts == [] then []
    else (if acts[0].Purge? then [] else [Respond(s, acts[0])]) + Responses(Do(s, acts[0]), acts[1..])
  }

  /**
   * Purging is invisible: leave every purge out of a run in which no request presents a token
   * inside the leeway, and every response and every unexpired row stays the same.
   */
  lemma {:induction false} PurgingIsInvisible(s: State, p: State, acts: seq<Action>)
    requires Safe(s) && Twins(s, p) && Run(p, acts) && PunctualRun(p, acts)
    ensures Run(s, WithoutPurges(acts))
    ensures Responses(s, WithoutPurges(acts)) == Responses(p, acts)
    ensures Twins(After(s, WithoutPurges(acts)), After(p, acts))
    ensures Unexpired(After(s, WithoutPurges(acts)).db.rows, After(p, acts).now)
            == Unexpired(After(p, acts).db.rows, After(p, acts).now)
    decreases |acts|
  {
    if acts == [] {
      TwinsAgree(s, p);
    } else if acts[0].Purge? {
      PurgeKeepsTwins(s, p);
      PurgingIsInvisible(s, Do(p, Purge), acts[1..]);
      assert WithoutPurges(acts) == WithoutPurges(acts[1..]);
    } else {
      TwinsEnable(s, p, acts[0]);
      TwinsStep(s, p, acts[0]);
      SafeStep(s, acts[0]);
      PurgingIsInvisible(Do(s, acts[0]), Do(p, acts[0]), acts[1..]);
      assert WithoutPurges(acts)[1..] == WithoutPurges(acts[1..]);
    }
  }

  // --------------------------------------------------- inside the leeway

  /** The replay of a used token whose row has been purged, while the user has live sessions. */
  predicate MissedReplay(s: State, p: State, token: Token) {
    && Valid(s, token)
    && token in s.db.rows && token !in p.db.rows && s.db.rows[token].revoked
    && exists t :: t in p.db.rows && p.db.rows[t].userId == token.sub && p.now <= p.db.rows[t].expiresAt
  }

  /**
   * Inside the leeway the response is still the same 401; the stored sessions come out the same
   * unless the token is a used one whose row is already gone, for then the family is not wiped.
   */
  lemma LeewayIsTheOnlyGap(s: State, p: State, token: Token, jti: nat, signedAt: nat)
    requires Safe(s) && Twins(s, p) && Enabled(s, Rotate(token, jti, signedAt))
             && Enabled(p, Rotate(token, jti, signedAt))
    ensures var a := Rotate(token, jti, signedAt);
            && Respond(p, a) == Respond(s, a)
            && (Unexpired(Do(s, a).db.rows, s.now) == Unexpired(Do(p, a).db.rows, s.now)
                <==> !MissedReplay(s, p, token))
  {
    var a := Rotate(token, jti, signedAt);
    if Valid(s, token) && token in s.db.rows && token !in p.db.rows {
      assert RowOk(s, token);
      RotateOutcome(s, token, jti, signedAt);
      RotateOutcome(p, token, jti, signedAt);
      TwinsAgree(s, p);
      WipeDetected(s, p, token);
    } else {
      TwinsRotate(s, p, token, jti, signedAt);
      TwinsAgree(Do(s, a), Do(p, a));
    }
  }

  lemma WipeDetected(s: State, p: State, token: Token)
    requires Twins(s, p)
    ensures Unexpired(WithoutUser(s.db.rows, token.sub), s.now) == Unexpired(p.db.rows, s.now)
            <==> !exists t :: t in p.db.rows && p.db.rows[t].userId == token.sub && p.now <= p.db.rows[t].expiresAt
  {
    if t :| t in p.db.rows && p.db.rows[t].userId == token.sub && p.now <= p.db.rows[t].expiresAt {
      assert t in Unexpired(p.db.rows, s.now) && t !in Unexpired(WithoutUser(s.db.rows, token.sub), s.now);
    } else {
      assert Unexpired(WithoutUser(s.db.rows, token.sub), s.now) == Unexpired(p.db.rows, s.now);
    }
  }
}
