/**
 * The authentication session store (src/store/authStore.ts).
 *
 * The store holds `token` and `user` in memory. `login` and `logout` first
 * write (or remove) two fixed keys of the device key-value storage, one await
 * at a time, and only then replace the in-memory fields. Each storage call is
 * a promise that may be rejected; how it settles is a parameter here. A
 * rejection ends the operation at that point and is passed on to the caller.
 */
module Auth {
  import opened Wrappers

  /** The `User` record kept in memory and persisted as JSON. */
  datatype User = User(name: string)

  /** The storage key of the bearer credential. */
  const TokenKey: string := "accessToken"
  /** The storage key of the serialised user. */
  const UserKey: string := "user"

  // ---------------------------------------------------------------------
  // JSON.stringify of a `{ name }` object, and a decoder for it

  function HexDigit(d: nat): char
    requires d < 16
  {
    "0123456789abcdef"[d]
  }

  function HexValue(c: char): Option<nat>
  {
    if '0' <= c <= '9' then Some(c as int - '0' as int)
    else if 'a' <= c <= 'f' then Some(c as int - 'a' as int + 10)
    else if 'A' <= c <= 'F' then Some(c as int - 'A' as int + 10)
    else None
  }

  /** How JSON.stringify writes one character inside a string literal. */
  function EscapeChar(c: char): string
  {
    if c == '"' then "\\\""
    else if c == '\\' then "\\\\"
    else if c == '\U{8}' then "\\b"
    else if c == '\U{C}' then "\\f"
    else if c == '\n' then "\\n"
    else if c == '\r' then "\\r"
    else if c == '\t' then "\\t"
    else if (c as int) < 0x20 then "\\u00" + [HexDigit(c as int / 16), HexDigit(c as int % 16)]
    else [c]
  }

  function Escape(s: string): string
  {
    if s == [] then [] else EscapeChar(s[0]) + Escape(s[1..])
  }

  const JsonPrefix: string := "{\"name\":\""
  const JsonSuffix: string := "\"}"

  /** `JSON.stringify(user)` for the one-field `User` record. */
  function Serialize(u: User): string
  {
    JsonPrefix + Escape(u.name) + JsonSuffix
  }

  /**
   * Reads one (possibly escaped) character at the front of the body of a JSON
   * string literal, with the number of characters it used.
   */
  function DecodeChar(s: string): (r: Option<(char, nat)>)
    requires s != []
    ensures r.Some? ==> 1 <= r.value.1 <= |s|
  {
    if s[0] == '\\' then
      if |s| < 2 then None
      else if s[1] == '"' then Some(('"', 2))
      else if s[1] == '\\' then Some(('\\', 2))
      else if s[1] == 'b' then Some(('\U{8}', 2))
      else if s[1] == 'f' then Some(('\U{C}', 2))
      else if s[1] == 'n' then Some(('\n', 2))
      else if s[1] == 'r' then Some(('\r', 2))
      else if s[1] == 't' then Some(('\t', 2))
      else if s[1] == 'u' && |s| >= 6 && s[2] == '0' && s[3] == '0'
              && HexValue(s[4]).Some? && HexValue(s[5]).Some? then
        Some(((HexValue(s[4]).value * 16 + HexValue(s[5]).value) as char, 6))
      else None
    else if s[0] == '"' || (s[0] as int) < 0x20 then None
    else Some((s[0], 1))
  }

  /** The characters of the body of a JSON string literal, or None when it is malformed. */
  function Unescape(s: string): Option<string>
    decreases |s|
  {
    if s == [] then Some([])
    else match DecodeChar(s)
      case None => None
      case Some((c, n)) =>
        match Unescape(s[n..])
        case None => None
        case Some(rest) => Some([c] + rest)
  }

  /** `JSON.parse` restricted to the shape `Serialize` produces. */
  function Deserialize(s: string): Option<User>
  {
    if |s| >= |JsonPrefix| + |JsonSuffix| && s[..|JsonPrefix|] == JsonPrefix
       && s[|s| - |JsonSuffix|..] == JsonSuffix
    then
      match Unescape(s[|JsonPrefix|..|s| - |JsonSuffix|])
      case None => None
      case Some(name) => Some(User(name))
    else None
  }

  lemma HexRoundTrip(d: nat)
    requires d < 16
    ensures HexValue(HexDigit(d)) == Some(d)
  {
  }

  lemma DecodeEscapeChar(c: char, rest: string)
    ensures DecodeChar(EscapeChar(c) + rest) == Some((c, |EscapeChar(c)|))
  {
    var e := EscapeChar(c);
    var s := e + rest;
    if c != '"' && c != '\\' && c != '\U{8}' && c != '\U{C}' && c != '\n' && c != '\r'
       && c != '\t' && (c as int) < 0x20 {
      var hi, lo := c as int / 16, c as int % 16;
      HexRoundTrip(hi);
      HexRoundTrip(lo);
      assert s[4] == HexDigit(hi) && s[5] == HexDigit(lo);
      assert (hi * 16 + lo) as char == c;
    } else {
      assert s[..|e|] == e;
    }
  }

  lemma {:induction false} UnescapeEscape(s: string)
    ensures Unescape(Escape(s)) == Some(s)
  {
    if s != [] {
      var e := EscapeChar(s[0]);
      var rest := Escape(s[1..]);
      DecodeEscapeChar(s[0], rest);
      assert (e + rest)[|e|..] == rest;
      UnescapeEscape(s[1..]);
      assert [s[0]] + s[1..] == s;
    }
  }

  /** The persisted "user" entry identifies the user it was written from. */
  lemma {:induction false} SerializeRoundTrip(u: User)
    ensures Deserialize(Serialize(u)) == Some(u)
  {
    var s := Serialize(u);
    assert s[..|JsonPrefix|] == JsonPrefix;
    assert s[|s| - |JsonSuffix|..] == JsonSuffix;
    assert s[|JsonPrefix|..|s| - |JsonSuffix|] == Escape(u.name);
    UnescapeEscape(u.name);
  }

  // ---------------------------------------------------------------------
  // The store's state and its two operations, as values

  /** The in-memory session together with the device storage it writes. */
  datatype Session = Session(token: Option<string>, user: Option<User>, storage: map<string, string>)

  /** The in-memory fields are set and cleared together. */
  predicate Paired(s: Session)
  {
    s.token.None? <==> s.user.None?
  }

  /** The state after an operation, and how the operation's promise settled. */
  datatype Step = Step(session: Session, outcome: Outcome)

  /**
   * `login(token, user)`: write "accessToken", then "user", then set both
   * fields. `tokenWrite` and `userWrite` are how the two writes settle.
   */
  function LoginStep(s: Session, token: string, user: User, tokenWrite: Outcome, userWrite: Outcome): (r: Step)
    // the promise fulfils exactly when both writes do, else carries the first rejection
    ensures r.outcome == (if tokenWrite.Rejected? then tokenWrite else userWrite)
    // on success: memory holds the new session and storage persists it
    ensures r.outcome.Resolved? ==>
              && r.session.token == Some(token) && r.session.user == Some(user)
              && UserKey in r.session.storage
              && r.session.storage[UserKey] == Serialize(user)
              && Deserialize(r.session.storage[UserKey]) == Some(user)
    // on failure: memory is untouched
    ensures r.outcome.Rejected? ==> r.session.token == s.token && r.session.user == s.user
    // storage: the token key is written as soon as its own write succeeds
    ensures tokenWrite.Resolved? ==> TokenKey in r.session.storage && r.session.storage[TokenKey] == token
    ensures tokenWrite.Rejected? ==> r.session.storage == s.storage
    ensures userWrite.Rejected? ==> r.session.storage - {TokenKey} == s.storage - {TokenKey}
    // no other key is touched
    ensures r.session.storage - {TokenKey, UserKey} == s.storage - {TokenKey, UserKey}
  {
    match tokenWrite
    case Rejected(_) => Step(s, tokenWrite)
    case Resolved =>
      var written := s.storage[TokenKey := token];
      match userWrite
      case Rejected(_) => Step(s.(storage := written), userWrite)
      case Resolved =>
        SerializeRoundTrip(user);
        Step(Session(Some(token), Some(user), written[UserKey := Serialize(user)]), Resolved)
  }

  /**
   * `logout()`: remove "accessToken", then "user", then clear both fields.
   * `tokenRemove` and `userRemove` are how the two removals settle.
   */
  function LogoutStep(s: Session, tokenRemove: Outcome, userRemove: Outcome): (r: Step)
    ensures r.outcome == (if tokenRemove.Rejected? then tokenRemove else userRemove)
    ensures r.outcome.Resolved? ==>
              && r.session.token.None? && r.session.user.None?
              && TokenKey !in r.session.storage && UserKey !in r.session.storage
    ensures r.outcome.Rejected? ==> r.session.token == s.token && r.session.user == s.user
    ensures tokenRemove.Resolved? ==> TokenKey !in r.session.storage
    ensures tokenRemove.Rejected? ==> r.session.storage == s.storage
    ensures userRemove.Rejected? ==> r.session.storage - {TokenKey} == s.storage - {TokenKey}
    ensures r.session.storage - {TokenKey, UserKey} == s.storage - {TokenKey, UserKey}
  {
    match tokenRemove
    case Rejected(_) => Step(s, tokenRemove)
    case Resolved =>
      var removed := s.storage - {TokenKey};
      match userRemove
      case Rejected(_) => Step(s.(storage := removed), userRemove)
      case Resolved => Step(Session(None, None, removed - {UserKey}), Resolved)
  }

  /** Two completed logouts leave the same state as one. */
  lemma LogoutIdempotent(s: Session)
    ensures var once := LogoutStep(s, Resolved, Resolved).session;
            LogoutStep(once, Resolved, Resolved).session == once
  {
  }

  /** Every settlement of login and logout keeps token and user paired. */
  lemma StepsKeepPaired(s: Session, token: string, user: User, first: Outcome, second: Outcome)
    requires Paired(s)
    ensures Paired(LoginStep(s, token, user, first, second).session)
    ensures Paired(LogoutStep(s, first, second).session)
  {
  }

  /**
   * When the second write of a login fails, storage already holds the new
   * token while memory keeps the old session: the two views disagree.
   */
  lemma PartialLoginDesynchronises(s: Session, token: string, user: User, reason: string)
    requires s.token != Some(token)
    ensures var r := LoginStep(s, token, user, Resolved, Rejected(reason));
            && r.outcome == Rejected(reason)
            && TokenKey in r.session.storage
            && Some(r.session.storage[TokenKey]) != r.session.token
  {
  }

  // ---------------------------------------------------------------------
  // The store as the application holds it

  class AuthStore {
    var token: Option<string>
    var user: Option<User>
    /** The device key-value storage the store writes through. */
    var storage: map<string, string>

    function State(): Session
      reads this
    {
      Session(token, user, storage)
    }

    ghost predicate Valid()
      reads this
    {
      Paired(State())
    }

    /** A fresh store does not read storage: it starts signed out whatever storage holds. */
    constructor (persisted: map<string, string>)
      ensures Valid()
      ensures token.None? && user.None? && storage == persisted
    {
      token := None;
      user := None;
      storage := persisted;
    }

    method Login(t: string, u: User, tokenWrite: Outcome, userWrite: Outcome) returns (r: Outcome)
      requires Valid()
      modifies this
      ensures Valid()
      ensures Step(State(), r) == LoginStep(old(State()), t, u, tokenWrite, userWrite)
    {
      if tokenWrite.Rejected? {
        return tokenWrite;
      }
      storage := storage[TokenKey := t];
      if userWrite.Rejected? {
        return userWrite;
      }
      storage := storage[UserKey := Serialize(u)];
      token, user := Some(t), Some(u);
      r := Resolved;
    }

    method Logout(tokenRemove: Outcome, userRemove: Outcome) returns (r: Outcome)
      requires Valid()
      modifies this
      ensures Valid()
      ensures Step(State(), r) == LogoutStep(old(State()), tokenRemove, userRemove)
    {
      if tokenRemove.Rejected? {
        return tokenRemove;
      }
      storage := storage - {TokenKey};
      if userRemove.Rejected? {
        return userRemove;
      }
      storage := storage - {UserKey};
      token, user := None, None;
      r := Resolved;
    }
  }
}
