/** Who may act, and in which roles: the cache entries' encoding and one `resolve` served alone. */
module Access {
  import opened Common

  // ------------------------------------------------------------------- codec

  /** Stored for a user without roles, so that it is told apart from a missing entry. */
  const EMPTY_ROLES_SENTINEL: string := "\0"

  function Join(names: seq<string>): string
    requires names != []
  {
    if |names| == 1 then names[0] else names[0] + "\n" + Join(names[1..])
  }

  /** Rust's `split('\n')`: always at least one piece. */
  function Split(text: string): (pieces: seq<string>)
    ensures |pieces| >= 1
  {
    if text == "" then [""]
    else if text[0] == '\n' then [""] + Split(text[1..])
    else
      var rest := Split(text[1..]);
      [[text[0]] + rest[0]] + rest[1..]
  }

  function EncodeRoles(names: seq<string>): string {
    if names == [] then EMPTY_ROLES_SENTINEL else Join(names)
  }

  function DecodeRoles(text: string): Option<seq<string>> {
    if text == EMPTY_ROLES_SENTINEL then Some([])
    else if text != "" then Some(Split(text))
    else None
  }

  function EncodeFlag(active: bool): string {
    if active then "1" else "0"
  }

  function DecodeFlag(text: string): Option<bool> {
    if text == "1" then Some(true) else if text == "0" then Some(false) else None
  }

  predicate Clean(names: seq<string>) {
    forall i :: 0 <= i < |names| ==> '\n' !in names[i]
  }

  lemma {:induction false} SplitPiecesAreClean(text: string)
    ensures Clean(Split(text))
  {
    if text != "" {
      SplitPiecesAreClean(text[1..]);
    }
  }

  lemma {:induction false} SplitAtNewline(name: string, text: string)
    requires '\n' !in name
    ensures Split(name + "\n" + text) == [name] + Split(text)
  {
    var all := name + "\n" + text;
    if name == "" {
      assert all[0] == '\n' && all[1..] == text;
    } else {
      SplitAtNewline(name[1..], text);
      assert all[0] == name[0] && all[1..] == name[1..] + "\n" + text;
      assert [name[0]] + name[1..] == name;
    }
  }

  lemma {:induction false} SplitWhole(name: string)
    requires '\n' !in name
    ensures Split(name) == [name]
  {
    if name != "" {
      SplitWhole(name[1..]);
      assert [name[0]] + name[1..] == name;
    }
  }

  lemma {:induction false} SplitUndoesJoin(names: seq<string>)
    requires names != [] && Clean(names)
    ensures Split(Join(names)) == names
  {
    if |names| == 1 {
      SplitWhole(names[0]);
    } else {
      SplitUndoesJoin(names[1..]);
      SplitAtNewline(names[0], Join(names[1..]));
    }
  }

  /**
   * A role list comes back from the cache as it went in iff no name holds a newline and it is
   * neither the one empty name nor the one name that is the sentinel.
   */
  lemma RolesRoundTrip(names: seq<string>)
    ensures DecodeRoles(EncodeRoles(names)) == Some(names)
            <==> Clean(names) && names != [""] && names != [EMPTY_ROLES_SENTINEL]
  {
    if names != [] {
      SplitPiecesAreClean(Join(names));
      if Clean(names) {
        SplitUndoesJoin(names);
        JoinIsShort(names);
      }
    }
  }

  lemma JoinIsShort(names: seq<string>)
    requires names != []
    ensures |names| > 1 ==> |Join(names)| >= 1 && (|Join(names)| == 1 ==> Join(names) == "\n")
  {
    if |names| > 1 && |Join(names)| == 1 {
      assert |names[0]| == 0 && Join(names)[0] == '\n';
    }
  }

  /** A list with a newline in a name is not taken for a missing entry. */
  lemma UncleanIsNotAMiss(names: seq<string>)
    requires names != [] && !Clean(names)
    ensures DecodeRoles(EncodeRoles(names)).Some?
  {
    if |names| == 1 {
      assert '\n' in names[0];
    } else {
      JoinIsShort(names);
    }
  }

  lemma FlagRoundTrip(active: bool)
    ensures DecodeFlag(EncodeFlag(active)) == Some(active)
  {
  }

  // ------------------------------------------------------------------ resolve

  const ROLE_TTL: nat := 900 * SECOND
  const ACTIVE_TTL: nat := 60 * SECOND

  datatype Entry = Entry(text: string, expiresAt: nat)

  /** One user's two keys. */
  datatype Cached = Cached(active: Option<Entry>, roles: Option<Entry>)

  /** The committed truth about a user: a missing row counts as inactive. */
  datatype Truth = Truth(active: bool, roles: seq<string>)

  function Fresh(entry: Option<Entry>, now: nat): Option<string> {
    if entry.Some? && now < entry.value.expiresAt then Some(entry.value.text) else None
  }

  function CachedFlag(c: Cached, now: nat): Option<bool> {
    if Fresh(c.active, now).Some? then DecodeFlag(Fresh(c.active, now).value) else None
  }

  function CachedRoles(c: Cached, now: nat): Option<seq<string>> {
    if Fresh(c.roles, now).Some? then DecodeRoles(Fresh(c.roles, now).value) else None
  }

  function Either<T>(cached: Option<T>, stored: T): T {
    if cached.Some? then cached.value else stored
  }

  /** What `resolve` answers, given the cache and the committed truth. */
  function AnswerFrom(c: Cached, truth: Truth, now: nat): Option<seq<string>> {
    if Either(CachedFlag(c, now), truth.active) then Some(Either(CachedRoles(c, now), truth.roles)) else None
  }

  /** What the database alone would answer. */
  function TrueAnswer(truth: Truth): Option<seq<string>> {
    if truth.active then Some(truth.roles) else None
  }

  /** The store no longer holds the entry at `now`, or never did. */
  predicate Gone(entry: Option<Entry>, now: nat) {
    entry.None? || entry.value.expiresAt <= now
  }

  /** What a stored text says about the flag; any other text says nothing. */
  predicate SaysFlag(text: string, active: bool) {
    text == if active then "1" else "0"
  }

  /** A cache command either works or counts as a miss. */
  class AccessCache {
    var active: Option<Entry>
    var roles: Option<Entry>

    function Contents(): Cached
      reads this
    {
      Cached(active, roles)
    }

    method Resolve(truth: Truth, now: nat, getsWork: bool, setsWork: bool) returns (access: Option<seq<string>>)
      modifies this
      // Without a readable entry the database answers, and a working SET EX refills for a minute ...
      ensures !getsWork || Gone(old(active), now)
              || (!SaysFlag(old(active).value.text, true) && !SaysFlag(old(active).value.text, false)) ==>
                && (access.Some? <==> truth.active)
                && active == if setsWork then Some(Entry(if truth.active then "1" else "0", now + 60000))
                             else old(active)
      // ... with one, the entry does, and stays as it is.
      ensures forall flag :: getsWork && !Gone(old(active), now) && SaysFlag(old(active).value.text, flag) ==>
                (access.Some? <==> flag) && active == old(active)
      ensures access.Some? && (!getsWork || Gone(old(roles), now) || old(roles).value.text == "") ==>
                && access.value == truth.roles
                && roles == if setsWork then Some(Entry(EncodeRoles(truth.roles), now + 900000)) else old(roles)
      ensures access.Some? && getsWork && !Gone(old(roles), now) && old(roles).value.text != "" ==>
                && access.value == (if old(roles).value.text == "\0" then [] else Split(old(roles).value.text))
                && roles == old(roles)
      ensures access.None? ==> roles == old(roles)
      ensures var before := if getsWork then old(Contents()) else Cached(None, None);
              && access == AnswerFrom(before, truth, now)
              && active == (if CachedFlag(before, now).Some? || !setsWork then old(active)
                            else Some(Entry(EncodeFlag(truth.active), now + ACTIVE_TTL)))
              && roles == (if access.None? || CachedRoles(before, now).Some? || !setsWork then old(roles)
                           else Some(Entry(EncodeRoles(truth.roles), now + ROLE_TTL)))
    {
      var flag: Option<bool> := None;
      if getsWork {
        flag := CachedFlag(Cached(active, roles), now);
      }
      if flag.None? {
        flag := Some(truth.active);
        if setsWork {
          active := Some(Entry(EncodeFlag(truth.active), now + ACTIVE_TTL));
        }
      }
      if !flag.value {
        return None;
      }
      var names: Option<seq<string>> := None;
      if getsWork {
        names := CachedRoles(Cached(active, roles), now);
      }
      if names.None? {
        names := Some(truth.roles);
        if setsWork {
          roles := Some(Entry(EncodeRoles(truth.roles), now + ROLE_TTL));
        }
      }
      return names;
    }

    /** `AccessDirty::flush`: whatever is committed by then, the next `resolve` answers it. */
    method Flush(works: bool)
      modifies this
      ensures works ==> forall truth, now :: AnswerFrom(Contents(), truth, now) == TrueAnswer(truth)
      ensures !works ==> Contents() == old(Contents())
    {
      if works {
        active, roles := None, None;
      }
    }
  }

  /**
   * With nothing changed in between, a second `resolve` gives the first one's answer exactly when the
   * list survives the cache.
   */
  lemma SecondAnswerAgrees(truth: Truth, now: nat, later: nat)
    requires now <= later < now + ACTIVE_TTL && truth.active
    ensures var filled := Cached(Some(Entry(EncodeFlag(true), now + ACTIVE_TTL)),
                                 Some(Entry(EncodeRoles(truth.roles), now + ROLE_TTL)));
            && CachedFlag(filled, later) == Some(true)
            && (Either(CachedRoles(filled, later), truth.roles) == truth.roles
                <==> Clean(truth.roles) && truth.roles != [EMPTY_ROLES_SENTINEL])
  {
    RolesRoundTrip(truth.roles);
  }
}
