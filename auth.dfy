/**
 * The session: a user (just a display name) and a role, held in memory and mirrored
 * into the browser's key/value storage under two keys so that a reload restores it.
 */
module Auth {
  import opened Wrappers

  /**
   * `UserRole`. A role read back from storage is cast without any check, so a stored
   * string other than the three names gives a role value outside the three; `Unrecognized`
   * stands for those.
   */
  datatype Role = Renter | Owner | Admin | Unrecognized(raw: string)

  /** The string a role is stored and compared as. */
  function RoleName(r: Role): string {
    match r
    case Renter => "renter"
    case Owner => "owner"
    case Admin => "admin"
    case Unrecognized(raw) => raw
  }

  /** One of the three roles the type declares. */
  predicate IsUserRole(r: Role) {
    r == Renter || r == Owner || r == Admin
  }

  /** The `as UserRole` cast: the role a stored string stands for. */
  function CastRole(s: string): (r: Role)
    ensures RoleName(r) == s
  {
    if s == "renter" then Renter
    else if s == "owner" then Owner
    else if s == "admin" then Admin
    else Unrecognized(s)
  }

  /** Storing a declared role and casting it back gives the same role. */
  lemma CastRoleRoundTrip(r: Role)
    requires IsUserRole(r)
    ensures CastRole(RoleName(r)) == r
    ensures RoleName(r) != ""
  {
  }

  datatype User = User(name: string)

  const UserKey: string := "rentify-user"
  const RoleKey: string := "rentify-role"

  /** Hexadecimal digit as `JSON.stringify` writes it (lower case). */
  function HexDigit(d: nat): (c: char)
    requires d < 16
    ensures HexValue(c) == Some(d)
  {
    if d < 10 then ('0' as int + d) as char else ('a' as int + d - 10) as char
  }

  /** The value of a hexadecimal digit of either case, as `JSON.parse` reads it. */
  function HexValue(c: char): (r: Option<nat>)
    ensures r.Some? ==> r.value < 16
  {
    if '0' <= c <= '9' then Some(c as int - '0' as int)
    else if 'a' <= c <= 'f' then Some(c as int - 'a' as int + 10)
    else if 'A' <= c <= 'F' then Some(c as int - 'A' as int + 10)
    else None
  }

  /** How `JSON.stringify` writes one character inside a string literal. */
  function JsonEscape(c: char): string {
    if c == '"' then "\\\""
    else if c == '\\' then "\\\\"
    else if c == '\U{0008}' then "\\b"
    else if c == '\U{000C}' then "\\f"
    else if c == '\n' then "\\n"
    else if c == '\r' then "\\r"
    else if c == '\t' then "\\t"
    else if c < ' ' then "\\u00" + [HexDigit(c as int / 16), HexDigit(c as int % 16)]
    else [c]
  }

  function JsonEscapeAll(s: string): string {
    if s == [] then "" else JsonEscape(s[0]) + JsonEscapeAll(s[1..])
  }

  /** The code point written by four hexadecimal digits. */
  function Hex4(s: string): (r: Option<nat>)
    requires |s| == 4
    ensures r.Some? ==> r.value < 0x1_0000
  {
    match (HexValue(s[0]), HexValue(s[1]), HexValue(s[2]), HexValue(s[3]))
    case (Some(a), Some(b), Some(c), Some(d)) => Some(((a * 16 + b) * 16 + c) * 16 + d)
    case _ => None
  }

  /** The one-letter escapes of JSON and the characters they stand for. */
  function ShortEscape(e: char): Option<char> {
    if e == '"' then Some('"')
    else if e == '\\' then Some('\\')
    else if e == '/' then Some('/')
    else if e == 'b' then Some('\U{0008}')
    else if e == 'f' then Some('\U{000C}')
    else if e == 'n' then Some('\n')
    else if e == 'r' then Some('\r')
    else if e == 't' then Some('\t')
    else None
  }

  /**
   * The first character of the inside of a JSON string literal, read as `JSON.parse` reads
   * it, with the number of characters it took; `None` where the literal would end (an
   * unescaped quote) or is malformed (a raw control character, a bad escape). An escaped
   * surrogate code point, which only a surrogate pair gives meaning to, is not read.
   */
  function ReadJsonChar(s: string): (r: Option<(char, nat)>)
    requires s != []
    ensures r.Some? ==> 1 <= r.value.1 <= |s|
  {
    if s[0] == '\\' then
      if |s| >= 2 && ShortEscape(s[1]).Some? then Some((ShortEscape(s[1]).value, 2))
      else if |s| >= 6 && s[1] == 'u' && Hex4(s[2..6]).Some? then
        var v := Hex4(s[2..6]).value;
        if 0xD800 <= v < 0xE000 then None else Some((v as char, 6))
      else None
    else if s[0] == '"' || s[0] < ' ' then None
    else Some((s[0], 1))
  }

  /** The text a JSON string literal's inside stands for, or `None` when it is not one. */
  function JsonUnescapeAll(s: string): Option<string>
    decreases |s|
  {
    if s == [] then Some("")
    else
      match ReadJsonChar(s)
      case None => None
      case Some((c, n)) =>
        match JsonUnescapeAll(s[n..])
        case None => None
        case Some(rest) => Some([c] + rest)
  }

  /** What `JSON.stringify` writes for one character reads back as that character. */
  lemma ReadEscaped(c: char, t: string)
    ensures ReadJsonChar(JsonEscape(c) + t) == Some((c, |JsonEscape(c)|))
  {
    var s := JsonEscape(c) + t;
    if c < ' ' && c != '\U{0008}' && c != '\U{000C}' && c != '\n' && c != '\r' && c != '\t' {
      var hi, lo := HexDigit(c as int / 16), HexDigit(c as int % 16);
      assert s[..6] == ['\\', 'u', '0', '0', hi, lo];
      assert s[2..6] == ['0', '0', hi, lo];
      assert Hex4(s[2..6]) == Some(c as int);
    }
  }

  /** `JSON.parse` undoes `JSON.stringify` on the inside of a string literal. */
  lemma {:induction false} JsonEscapeRoundTrip(s: string)
    ensures JsonUnescapeAll(JsonEscapeAll(s)) == Some(s)
  {
    if s != [] {
      var e, rest := JsonEscape(s[0]), JsonEscapeAll(s[1..]);
      assert JsonEscapeAll(s) == e + rest;
      ReadEscaped(s[0], rest);
      assert (e + rest)[|e|..] == rest;
      JsonEscapeRoundTrip(s[1..]);
      assert [s[0]] + s[1..] == s;
    }
  }

  /** Text before and after the escaped name in the stored user. */
  const UserJsonPrefix: string := "{\"name\":\""
  const UserJsonSuffix: string := "\"}"

  /** `JSON.parse` of a stored user: the object with a single `name` string, or `None`. */
  function ParseUserJson(t: string): Option<User> {
    if |t| >= |UserJsonPrefix| + |UserJsonSuffix| && t[..|UserJsonPrefix|] == UserJsonPrefix &&
       t[|t| - |UserJsonSuffix|..] == UserJsonSuffix
    then
      match JsonUnescapeAll(t[|UserJsonPrefix|..|t| - |UserJsonSuffix|])
      case Some(name) => Some(User(name))
      case None => None
    else None
  }

  /** `JSON.stringify({ name })`: an object that reads back as the same user. */
  function UserJson(u: User): (r: string)
    ensures |r| > 0 && r[0] == '{'
    ensures ParseUserJson(r) == Some(u)
  {
    var body := JsonEscapeAll(u.name);
    var r := UserJsonPrefix + body + UserJsonSuffix;
    JsonEscapeRoundTrip(u.name);
    assert r[..|UserJsonPrefix|] == UserJsonPrefix;
    assert r[|r| - |UserJsonSuffix|..] == UserJsonSuffix;
    assert r[|UserJsonPrefix|..|r| - |UserJsonSuffix|] == body;
    r
  }

  /**
   * What `JSON.parse` yields for the stored user text: a failure (it throws), or a value
   * that is either falsy (`None`) or a user object.
   */
  datatype Parsed = ParseError | Value(user: Option<User>)

  datatype Session = Session(user: Option<User>, role: Option<Role>)

  const LoggedOut := Session(None, None)

  /** The session and the storage after the startup effect. */
  datatype Startup = Startup(session: Session, storage: map<string, string>)

  /** A stored value counts only when it is present and not the empty string (`storedUser && storedRole`). */
  predicate Truthy(storage: map<string, string>, key: string) {
    key in storage && storage[key] != ""
  }

  /**
   * The startup effect: restore only when both keys hold a non-empty value; if parsing the
   * user throws, remove both keys and stay logged out.
   */
  function Restore(storage: map<string, string>, parse: string -> Parsed): (r: Startup)
    ensures !(Truthy(storage, UserKey) && Truthy(storage, RoleKey)) ==> r == Startup(LoggedOut, storage)
    ensures Truthy(storage, UserKey) && Truthy(storage, RoleKey) && parse(storage[UserKey]).ParseError? ==>
      r == Startup(LoggedOut, storage - {UserKey, RoleKey})
    ensures Truthy(storage, UserKey) && Truthy(storage, RoleKey) && parse(storage[UserKey]).Value? ==>
      r.storage == storage && r.session.user == parse(storage[UserKey]).user &&
      r.session.role == Some(CastRole(storage[RoleKey]))
  {
    if Truthy(storage, UserKey) && Truthy(storage, RoleKey) then
      match parse(storage[UserKey])
      case ParseError => Startup(LoggedOut, storage - {UserKey, RoleKey})
      case Value(u) => Startup(Session(u, Some(CastRole(storage[RoleKey]))), storage)
    else
      Startup(LoggedOut, storage)
  }

  /** The storage as `login` leaves it. */
  function StoreLogin(storage: map<string, string>, name: string, role: Role): map<string, string> {
    storage[UserKey := UserJson(User(name))][RoleKey := RoleName(role)]
  }

  /** The storage as `logout` leaves it. */
  function StoreLogout(storage: map<string, string>): map<string, string> {
    storage - {UserKey, RoleKey}
  }

  /** Storage agrees with the session: both keys absent when logged out, both holding the session when logged in. */
  predicate Mirrors(s: Session, storage: map<string, string>) {
    (s == LoggedOut && UserKey !in storage && RoleKey !in storage) ||
    (s.user.Some? && s.role.Some? &&
     UserKey in storage && storage[UserKey] == UserJson(s.user.value) &&
     RoleKey in storage && storage[RoleKey] == RoleName(s.role.value))
  }

  /**
   * A login survives a reload: with a parser that reads back what `JSON.stringify` wrote,
   * the startup effect restores exactly the logged-in session and leaves storage alone.
   */
  lemma LoginSurvivesReload(storage: map<string, string>, name: string, role: Role, parse: string -> Parsed)
    requires IsUserRole(role)
    requires parse(UserJson(User(name))) == Value(Some(User(name)))
    ensures Mirrors(Session(Some(User(name)), Some(role)), StoreLogin(storage, name, role))
    ensures Restore(StoreLogin(storage, name, role), parse) ==
      Startup(Session(Some(User(name)), Some(role)), StoreLogin(storage, name, role))
  {
    CastRoleRoundTrip(role);
    assert UserKey != RoleKey;
  }

  /** A logout survives a reload: storage agrees with the logged-out session and the startup effect restores nothing. */
  lemma LogoutSurvivesReload(storage: map<string, string>, parse: string -> Parsed)
    ensures Mirrors(LoggedOut, StoreLogout(storage))
    ensures Restore(StoreLogout(storage), parse) == Startup(LoggedOut, StoreLogout(storage))
  {
  }

  /**
   * `JSON.parse` on the texts `login` stores: the user object it writes, and a throw on any
   * text that is not such an object.
   */
  function ReadStoredUser(t: string): Parsed {
    match ParseUserJson(t)
    case Some(u) => Value(Some(u))
    case None => ParseError
  }

  /** With that parser, a reload after login restores the session exactly. */
  lemma LoginRestoredByJsonParse(storage: map<string, string>, name: string, role: Role)
    requires IsUserRole(role)
    ensures Restore(StoreLogin(storage, name, role), ReadStoredUser) ==
      Startup(Session(Some(User(name)), Some(role)), StoreLogin(storage, name, role))
  {
    LoginSurvivesReload(storage, name, role, ReadStoredUser);
  }

  class AuthProvider {
    var user: Option<User>
    var role: Option<Role>
    /** The browser storage, a string-to-string map. */
    var storage: map<string, string>

    /** The provider mounts logged out, over whatever the browser has stored. */
    constructor (stored: map<string, string>)
      ensures user == None && role == None && storage == stored
    {
      user, role, storage := None, None, stored;
    }

    /** `isAuthenticated`: a user object is present. */
    function IsAuthenticated(): (r: bool)
      reads this
      ensures r <==> user.Some?
    {
      user != None
    }

    /**
     * The mount-time effect; `parse` stands for `JSON.parse`. It sets the user and role only
     * when it restores them, so run over the initial logged-out state it yields `Restore`.
     */
    method RestoreSession(parse: string -> Parsed)
      modifies this
      ensures storage == Restore(old(storage), parse).storage
      ensures Truthy(old(storage), UserKey) && Truthy(old(storage), RoleKey) && parse(old(storage)[UserKey]).Value? ==>
        Session(user, role) == Restore(old(storage), parse).session
      ensures !(Truthy(old(storage), UserKey) && Truthy(old(storage), RoleKey) && parse(old(storage)[UserKey]).Value?) ==>
        user == old(user) && role == old(role)
      ensures old(user) == None && old(role) == None ==> Session(user, role) == Restore(old(storage), parse).session
    {
      var r := Restore(storage, parse);
      if Truthy(storage, UserKey) && Truthy(storage, RoleKey) && parse(storage[UserKey]).Value? {
        user, role := r.session.user, r.session.role;
      }
      storage := r.storage;
    }

    /** `login(name, role)`: set the user and role and write both keys. */
    method Login(name: string, newRole: Role)
      modifies this
      ensures user == Some(User(name)) && role == Some(newRole)
      ensures storage == StoreLogin(old(storage), name, newRole)
      ensures Mirrors(Session(user, role), storage)
    {
      user := Some(User(name));
      role := Some(newRole);
      storage := storage[UserKey := UserJson(User(name))];
      storage := storage[RoleKey := RoleName(newRole)];
      assert UserKey != RoleKey;
    }

    /** `logout()`: clear the user and role and remove both keys (the redirect to the login page is navigation). */
    method Logout()
      modifies this
      ensures user == None && role == None
      ensures storage == StoreLogout(old(storage))
      ensures Mirrors(Session(user, role), storage)
    {
      user, role := None, None;
      storage := storage - {UserKey, RoleKey};
    }
  }
}
