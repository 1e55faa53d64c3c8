/**
 * The simulated role login of frontend/lib/actions.ts: a submitted role name
 * is trimmed, checked against a fixed role-to-token table, and the token is
 * stored in the `auth_token` cookie; logout deletes that cookie and
 * getAuthToken reads it.
 */
module Session {
  import opened Wrappers
  import opened Strings

  // ---------------------------------------------------------------------
  // Constants

  /** The role-to-token table. */
  const MockTokens: map<string, string> :=
    map["teacher" := "teacher_123", "administrator" := "admin_001", "dpo" := "dpo_001"]

  const AuthCookie := "auth_token"
  const NoFormDataMessage := "No form data submitted."
  const InvalidRoleMessage := "Invalid role selected."
  /** One week, in seconds. */
  const SessionMaxAge: int := 60 * 60 * 24 * 7

  // ---------------------------------------------------------------------
  // Cookies

  /**
   * The attributes passed with a cookie: HttpOnly (section 5.2.6 of RFC 6265),
   * Secure (5.2.5), Max-Age (5.2.2), Path (5.2.4) and SameSite (from the
   * revision of RFC 6265 in draft).
   */
  datatype CookieOptions = CookieOptions(httpOnly: bool, secure: bool, maxAge: int, path: string, sameSite: string)

  /** A stored cookie: its value and the attributes it was set with. */
  datatype Cookie = Cookie(value: string, options: CookieOptions)

  /** The attributes of the session cookie; Secure depends on the deployment (`NODE_ENV`). */
  function SessionOptions(nodeEnv: string): (o: CookieOptions)
    ensures o.httpOnly && o.maxAge == 7 * 24 * 3600 && o.path == "/" && o.sameSite == "lax"
    ensures o.secure <==> nodeEnv == "production"
  {
    CookieOptions(httpOnly := true, secure := nodeEnv == "production", maxAge := SessionMaxAge,
                  path := "/", sameSite := "lax")
  }

  /** The request's cookie store, `cookies()`: at most one cookie per name. */
  class CookieJar {
    var cookies: map<string, Cookie>

    constructor ()
      ensures cookies == map[]
    {
      cookies := map[];
    }

    /** `cookies().set(name, value, options)` replaces any cookie of that name. */
    method Set(name: string, value: string, options: CookieOptions)
      modifies this
      ensures cookies == old(cookies)[name := Cookie(value, options)]
    {
      cookies := cookies[name := Cookie(value, options)];
    }

    /** `cookies().delete(name)`; deleting an absent cookie changes nothing. */
    method Delete(name: string)
      modifies this
      ensures cookies == old(cookies) - {name}
    {
      cookies := cookies - {name};
    }

    /** `cookies().get(name)`. */
    function Get(name: string): (r: Option<Cookie>)
      reads this
      ensures r.Some? <==> name in cookies
      ensures r.Some? ==> r.value == cookies[name]
    {
      if name in cookies then Some(cookies[name]) else None
    }
  }

  /** The auth token a cookie map holds, if any: `get("auth_token")?.value`. */
  function AuthTokenOf(cookies: map<string, Cookie>): (r: Option<string>)
    ensures r.Some? <==> AuthCookie in cookies
    ensures r.Some? ==> r.value == cookies[AuthCookie].value
  {
    if AuthCookie in cookies then Some(cookies[AuthCookie].value) else None
  }

  /** `getAuthToken()`: a pure read of the jar. */
  function GetAuthToken(jar: CookieJar): (r: Option<string>)
    reads jar
    ensures r == AuthTokenOf(jar.cookies)
  {
    match jar.Get(AuthCookie)
    case Some(c) => Some(c.value)
    case None => None
  }

  // ---------------------------------------------------------------------
  // Form submissions

  /** A value of a submitted form field: text, or an uploaded file. */
  datatype FormEntry = Text(text: string) | File(fileName: string)

  /** A `FormData` object: its entries in submission order (a name may repeat). */
  datatype FormData = FormData(entries: seq<(string, FormEntry)>)

  /** `formData.get(name)`: the first entry with that name, or `null`. */
  function FormGet(fd: FormData, name: string): (r: Option<FormEntry>)
    ensures r.None? <==> forall i :: 0 <= i < |fd.entries| ==> fd.entries[i].0 != name
    ensures r.Some? ==> exists i :: 0 <= i < |fd.entries| && fd.entries[i] == (name, r.value) &&
                                    (forall j :: 0 <= j < i ==> fd.entries[j].0 != name)
    decreases |fd.entries|
  {
    if |fd.entries| == 0 then None
    else if fd.entries[0].0 == name then Some(fd.entries[0].1)
    else
      var r := FormGet(FormData(fd.entries[1..]), name);
      assert forall i :: 1 <= i < |fd.entries| ==> fd.entries[i] == fd.entries[1..][i - 1];
      if r.Some? then
        var k :| 0 <= k < |fd.entries| - 1 && fd.entries[1..][k] == (name, r.value) &&
                 (forall j :: 0 <= j < k ==> fd.entries[1..][j].0 != name);
        assert fd.entries[k + 1] == (name, r.value);
        assert forall j :: 0 <= j < k + 1 ==> fd.entries[j].0 != name;
        r
      else
        r
  }

  /** `String(value)`: a file is rendered the way JavaScript renders any File object. */
  function EntryString(e: FormEntry): string {
    match e
    case Text(t) => t
    case File(_) => "[object File]"
  }

  /** The role field, `String(formData.get("role") ?? "").trim()`. */
  function RoleField(fd: FormData): (role: string)
    ensures role == "" || (!IsWhiteSpace(role[0]) && !IsWhiteSpace(role[|role| - 1]))
    ensures (forall i :: 0 <= i < |fd.entries| ==> fd.entries[i].0 != "role") ==> role == ""
  {
    WhiteSpaceTrimsToEmpty("");
    Trim(match FormGet(fd, "role") case Some(e) => EntryString(e) case None => "")
  }

  /** An argument passed to the server action. */
  datatype Arg =
    | FormDataValue(data: FormData)
    | FalsyValue      // undefined, null, false, 0, the empty string
    | Getter(value: Option<string>)
                      // a truthy non-FormData with a callable `get` (a Map, say): what
                      // `get("role")` yields after `String(...)`, None for null or undefined
    | OtherObject     // any other truthy value: it has no callable `get`

  /**
   * The argument login reads its form from: the first if it is a FormData,
   * otherwise the second (undefined when there is no second).
   */
  function SelectedArg(args: seq<Arg>): (a: Arg)
    ensures a.FormDataValue? <==> (|args| > 0 && args[0].FormDataValue?) || (|args| > 1 && args[1].FormDataValue?)
    ensures a != FalsyValue ==> a in args
  {
    if |args| > 0 && args[0].FormDataValue? then args[0]
    else if |args| > 1 then args[1]
    else FalsyValue
  }

  // ---------------------------------------------------------------------
  // Role resolution

  /** How a login attempt is decided, before any effect. */
  datatype Resolution =
    | NoFormData                   // neither call shape supplied a form
    | NotAForm                     // a truthy value without `get`: calling it throws a TypeError
    | UnknownRole(role: string)    // empty, or not a key of the table
    | MissingToken(role: string)   // a key whose token is empty (the defensive branch)
    | Granted(role: string, token: string)

  /**
   * The decision on an already trimmed role name: empty or unknown names are
   * refused, a known name without a token is the defensive failure, any other
   * known name is granted its token.
   */
  function Decide(table: map<string, string>, role: string): (r: Resolution)
    ensures r.Granted? <==> role != "" && role in table && table[role] != ""
    ensures r.Granted? ==> r.role == role && r.token == table[role]
    ensures r.UnknownRole? <==> role == "" || role !in table
    ensures r.MissingToken? <==> role != "" && role in table && table[role] == ""
    ensures r.UnknownRole? || r.MissingToken? || r.Granted?
  {
    if role == "" || role !in table then UnknownRole(role)
    else if table[role] == "" then MissingToken(role)
    else Granted(role, table[role])
  }

  /** The decision login takes for a token table and its arguments. */
  function Resolve(table: map<string, string>, args: seq<Arg>): (r: Resolution)
    ensures r == NoFormData <==> SelectedArg(args) == FalsyValue
    ensures r == NotAForm <==> SelectedArg(args) == OtherObject
    ensures SelectedArg(args).FormDataValue? ==> r == Decide(table, RoleField(SelectedArg(args).data))
    ensures SelectedArg(args).Getter? ==> r == Decide(table, Trim(SelectedArg(args).value.GetOr("")))
  {
    match SelectedArg(args)
    case FalsyValue => NoFormData
    case OtherObject => NotAForm
    case Getter(value) => Decide(table, Trim(value.GetOr("")))
    case FormDataValue(fd) => Decide(table, RoleField(fd))
  }

  /** What login returns to its caller. */
  datatype LoginResult =
    | Failed(message: string)      // `{ success: false, message }`
    | Redirected(location: string) // the redirect thrown after the cookie is set
    | Threw                        // the TypeError of calling a `get` that is not there

  /** The result login reports for a decision. */
  function ResultOf(r: Resolution): (res: LoginResult)
    ensures res.Redirected? <==> r.Granted?
    ensures res == Failed(InvalidRoleMessage) <==> r.UnknownRole? || r.MissingToken?
  {
    match r
    case NoFormData => Failed(NoFormDataMessage)
    case NotAForm => Threw
    case UnknownRole(_) => Failed(InvalidRoleMessage)
    case MissingToken(_) => Failed(InvalidRoleMessage)
    case Granted(_, _) => Redirected("/")
  }

  /** The cookies after a login attempt: only a granted attempt writes, and it writes `auth_token` alone. */
  function CookiesAfterLogin(cookies: map<string, Cookie>, r: Resolution, nodeEnv: string): (c: map<string, Cookie>)
    ensures !r.Granted? ==> c == cookies
    ensures r.Granted? ==> AuthCookie in c && c[AuthCookie] == Cookie(r.token, SessionOptions(nodeEnv))
    ensures c - {AuthCookie} == cookies - {AuthCookie}
  {
    if r.Granted? then cookies[AuthCookie := Cookie(r.token, SessionOptions(nodeEnv))] else cookies
  }

  /**
   * `login(...args)` against a token table (the application uses MockTokens).
   * It selects the form by call shape (any object with a `get` is read the
   * same way), trims the role, rejects empty and
   * unknown roles and roles without a token, and otherwise sets the session
   * cookie and redirects to "/". A role is known when it is an own key of the
   * table; DecideAsWritten shows what the inherited names do to the test as
   * written.
   */
  method Login(jar: CookieJar, table: map<string, string>, nodeEnv: string, args: seq<Arg>) returns (result: LoginResult)
    modifies jar
    ensures result == ResultOf(Resolve(table, args))
    ensures jar.cookies == CookiesAfterLogin(old(jar.cookies), Resolve(table, args), nodeEnv)
  {
    ghost var decision := Resolve(table, args);
    var formData := if |args| > 0 && args[0].FormDataValue? then args[0] else if |args| > 1 then args[1] else FalsyValue;
    assert formData == SelectedArg(args);
    if formData.FalsyValue? {
      return Failed(NoFormDataMessage);
    }
    if formData.OtherObject? {
      return Threw;
    }
    var raw: string;
    if formData.FormDataValue? {
      var field := FormGet(formData.data, "role");
      raw := if field.Some? then EntryString(field.value) else "";
    } else {
      raw := formData.value.GetOr("");
    }
    var role := Trim(raw);
    assert formData.FormDataValue? ==> role == RoleField(formData.data);
    assert decision == Decide(table, role);
    if role == "" || role !in table {
      return Failed(InvalidRoleMessage);
    }
    var token := table[role];
    if token == "" {
      return Failed(InvalidRoleMessage);
    }
    assert decision == Granted(role, token);
    jar.Set(AuthCookie, token, SessionOptions(nodeEnv));
    return Redirected("/");
  }

  /** `logout()`: deletes the session cookie and redirects to "/login". */
  method Logout(jar: CookieJar) returns (location: string)
    modifies jar
    ensures jar.cookies == old(jar.cookies) - {AuthCookie}
    ensures location == "/login"
  {
    jar.Delete(AuthCookie);
    location := "/login";
  }

  // ---------------------------------------------------------------------
  // Properties of resolution

  /** A form whose role field is a single text entry. */
  function RoleForm(role: string): FormData {
    FormData([("role", Text(role))])
  }

  /** The role read from such a form is the trimmed entry. */
  lemma RoleFormField(role: string)
    ensures RoleField(RoleForm(role)) == Trim(role)
  {
    assert FormGet(RoleForm(role), "role") == Some(Text(role));
  }

  /** Submitting a single role entry is deciding on that entry, trimmed. */
  lemma ResolveRoleForm(table: map<string, string>, role: string)
    ensures Resolve(table, [FormDataValue(RoleForm(role))]) == Decide(table, Trim(role))
  {
    var args := [FormDataValue(RoleForm(role))];
    assert SelectedArg(args) == FormDataValue(RoleForm(role));
    RoleFormField(role);
  }

  /** A form given alone and the same form after a previous state that is not a form are read alike. */
  lemma CallShapesAgree(table: map<string, string>, fd: FormData, prevState: Arg)
    requires !prevState.FormDataValue?
    ensures Resolve(table, [prevState, FormDataValue(fd)]) == Resolve(table, [FormDataValue(fd)])
  {
    assert SelectedArg([prevState, FormDataValue(fd)]) == FormDataValue(fd) == SelectedArg([FormDataValue(fd)]);
  }

  /**
   * An argument that is not a FormData but has a `get` of its own (a Map, say) is
   * read like a form: what it gives for "role" is trimmed and decided, and
   * nothing is the empty role.
   */
  lemma GetterArgumentIsRead(table: map<string, string>, prevState: Arg, value: Option<string>)
    requires !prevState.FormDataValue?
    ensures value.Some? ==> Resolve(table, [prevState, Getter(value)]) == Decide(table, Trim(value.value))
    ensures value.None? ==> Resolve(table, [prevState, Getter(value)]) == UnknownRole("")
  {
    var args := [prevState, Getter(value)];
    assert SelectedArg(args) == Getter(value);
    if value.None? {
      assert Resolve(table, args) == Decide(table, Trim(""));
      WhiteSpaceTrimsToEmpty("");
      assert Decide(table, "") == UnknownRole("");
    }
  }

  /** The three entries of the table: teacher, administrator and dpo, and their tokens. */
  lemma MockTokenValues()
    ensures MockTokens.Keys == {"teacher", "administrator", "dpo"}
    ensures MockTokens["teacher"] == "teacher_123"
    ensures MockTokens["administrator"] == "admin_001"
    ensures MockTokens["dpo"] == "dpo_001"
  {
  }

  /** The role names of MockTokens are non-empty, start and end with a character that is not white space, and each has a token. */
  lemma MockTokenKeyBoundaries(role: string)
    requires role in MockTokens
    ensures role != "" && !IsWhiteSpace(role[0]) && !IsWhiteSpace(role[|role| - 1])
    ensures MockTokens[role] != ""
  {
    MockTokenValues();
  }

  /** The role names of MockTokens need no trimming, and each has a token. */
  lemma MockTokenKeysTrimmed(role: string)
    requires role in MockTokens
    ensures role != "" && !IsWhiteSpace(role[0]) && !IsWhiteSpace(role[|role| - 1])
    ensures Trim(role) == role && MockTokens[role] != ""
  {
    MockTokenKeyBoundaries(role);
    TrimOfTrimmed(role);
  }

  /**
   * Each known role, whatever white space surrounds it, obtains its own
   * fixed token: teacher_123, admin_001 or dpo_001.
   */
  lemma KnownRoleResolves(role: string, before: string, after: string)
    requires role in MockTokens
    requires AllWhiteSpace(before) && AllWhiteSpace(after)
    ensures Resolve(MockTokens, [FormDataValue(RoleForm(before + role + after))]) == Granted(role, MockTokens[role])
  {
    MockTokenKeysTrimmed(role);
    TrimPadded(before, role, after);
    ResolveRoleForm(MockTokens, before + role + after);
  }

  /** A role made of white space only, the empty role included, is rejected as invalid. */
  lemma BlankRoleRejected(table: map<string, string>, role: string)
    requires AllWhiteSpace(role)
    ensures Resolve(table, [FormDataValue(RoleForm(role))]) == UnknownRole("")
    ensures ResultOf(Resolve(table, [FormDataValue(RoleForm(role))])) == Failed(InvalidRoleMessage)
  {
    ResolveRoleForm(table, role);
    WhiteSpaceTrimsToEmpty(role);
  }

  /** A form without a role field counts as the empty role. */
  lemma MissingRoleRejected(table: map<string, string>, fd: FormData)
    requires forall i :: 0 <= i < |fd.entries| ==> fd.entries[i].0 != "role"
    ensures Resolve(table, [FormDataValue(fd)]) == UnknownRole("")
  {
    assert FormGet(fd, "role") == None;
    WhiteSpaceTrimsToEmpty("");
  }

  /** A role name that is not a key of the table, once trimmed, is refused. */
  lemma UnknownRoleRejected(table: map<string, string>, role: string)
    requires Trim(role) !in table
    ensures Resolve(table, [FormDataValue(RoleForm(role))]) == UnknownRole(Trim(role))
    ensures ResultOf(Resolve(table, [FormDataValue(RoleForm(role))])) == Failed(InvalidRoleMessage)
  {
    ResolveRoleForm(table, role);
  }

  /** "superadmin" needs no trimming and is not a role. */
  lemma SuperadminIsUnknown()
    ensures Trim("superadmin") == "superadmin" && "superadmin" !in MockTokens
  {
    TrimOfTrimmed("superadmin");
  }

  /** No form under either call shape: "No form data submitted." */
  lemma NoFormRejected(prevState: Arg)
    requires !prevState.FormDataValue?
    ensures ResultOf(Resolve(MockTokens, [])) == Failed(NoFormDataMessage)
    ensures ResultOf(Resolve(MockTokens, [prevState])) == Failed(NoFormDataMessage)
    ensures ResultOf(Resolve(MockTokens, [prevState, FalsyValue])) == Failed(NoFormDataMessage)
  {
  }

  /** With the application's table the defensive branch cannot be taken: every key has a token. */
  lemma MockTokensHaveTokens(args: seq<Arg>)
    ensures !Resolve(MockTokens, args).MissingToken?
  {
    forall role | role in MockTokens ensures MockTokens[role] != "" {
      MockTokenKeyBoundaries(role);
    }
  }

  /** A table that lists a role without a token fails that role with the invalid-role message. */
  lemma InconsistentTableRejected(role: string)
    requires role != "" && role == Trim(role)
    ensures Resolve(map[role := ""], [FormDataValue(RoleForm(role))]) == MissingToken(role)
    ensures ResultOf(Resolve(map[role := ""], [FormDataValue(RoleForm(role))])) == Failed(InvalidRoleMessage)
  {
    ResolveRoleForm(map[role := ""], role);
  }

  /** Whatever the arguments, a successful login yields one of the three fixed tokens of MockTokens. */
  lemma GrantedTokenIsFixed(args: seq<Arg>)
    ensures var r := Resolve(MockTokens, args);
      r.Granted? ==> (r.role, r.token) in {("teacher", "teacher_123"), ("administrator", "admin_001"), ("dpo", "dpo_001")}
  {
  }

  // ---------------------------------------------------------------------
  // The membership test as written

  /**
   * Names every plain JavaScript object inherits from `Object.prototype`
   * (section 20.1.3 of ECMA-262, with the legacy accessors of its Annex B):
   * the `in` operator finds them on the token table too.
   */
  const InheritedNames: set<string> := {
    "constructor", "hasOwnProperty", "isPrototypeOf", "propertyIsEnumerable", "toLocaleString",
    "toString", "valueOf", "__proto__", "__defineGetter__", "__defineSetter__",
    "__lookupGetter__", "__lookupSetter__"}

  /** A property read from the table: an own token string, or an inherited member (a function, or the prototype object). */
  datatype Property = OwnValue(text: string) | InheritedValue(name: string)

  /**
   * `MOCK_TOKENS[name]` as JavaScript evaluates it, for a table whose
   * prototype provides `inherited` (InheritedNames in the application): own
   * entries first, then the inherited members.
   */
  function PropertyOf(table: map<string, string>, inherited: set<string>, name: string): (r: Option<Property>)
    ensures r.Some? <==> name in table || name in inherited
    ensures name in table ==> r == Some(OwnValue(table[name]))
    ensures name !in table && name in inherited ==> r == Some(InheritedValue(name))
  {
    if name in table then Some(OwnValue(table[name]))
    else if name in inherited then Some(InheritedValue(name))
    else None
  }

  /** The outcome of the two guards of login as written: refused, or accepted with the value then stored in the cookie. */
  datatype WrittenDecision = Refused | Accepted(token: Property)

  /**
   * The guards as written: `role in MOCK_TOKENS` holds for inherited names as
   * well, and the value found there is truthy, so `!token` lets it pass.
   */
  function DecideAsWritten(table: map<string, string>, inherited: set<string>, role: string): (r: WrittenDecision)
    ensures r.Accepted? <==> role != "" && ((role in table && table[role] != "") || (role !in table && role in inherited))
  {
    if role == "" then Refused
    else match PropertyOf(table, inherited, role)
      case None => Refused
      case Some(OwnValue(t)) => if t == "" then Refused else Accepted(OwnValue(t))
      case Some(InheritedValue(n)) => Accepted(InheritedValue(n))
  }

  /** Away from the inherited names the guards as written decide exactly as the own-key decision does. */
  lemma AsWrittenAgreesOnOwnNames(table: map<string, string>, inherited: set<string>, role: string)
    requires role !in inherited
    ensures DecideAsWritten(table, inherited, role).Accepted? <==> Decide(table, role).Granted?
    ensures Decide(table, role).Granted? ==> DecideAsWritten(table, inherited, role) == Accepted(OwnValue(Decide(table, role).token))
  {
  }

  /**
   * An inherited name that needs no trimming and is not an own entry passes
   * both guards as written, while the own-key decision refuses it.
   */
  lemma InheritedNameAccepted(table: map<string, string>, inherited: set<string>, role: string)
    requires role in inherited && role !in table && role != "" && Trim(role) == role
    ensures DecideAsWritten(table, inherited, role) == Accepted(InheritedValue(role))
    ensures Resolve(table, [FormDataValue(RoleForm(role))]) == UnknownRole(role)
  {
    ResolveRoleForm(table, role);
  }

  /**
   * The discrepancy: submitting the role "toString" passes both guards as
   * written, and a function would become the session token, whereas the
   * own-key decision refuses it as an invalid role.
   */
  lemma PrototypeNameAccepted()
    ensures DecideAsWritten(MockTokens, InheritedNames, "toString") == Accepted(InheritedValue("toString"))
    ensures Resolve(MockTokens, [FormDataValue(RoleForm("toString"))]) == UnknownRole("toString")
  {
    var name := "toString";
    assert name in InheritedNames;
    assert name !in MockTokens by {
      MockTokenValues();
      assert name[1] == 'o';
    }
    assert Trim(name) == name by {
      assert !IsWhiteSpace(name[0]) && !IsWhiteSpace(name[|name| - 1]);
      TrimOfTrimmed(name);
    }
    InheritedNameAccepted(MockTokens, InheritedNames, name);
  }

  // ---------------------------------------------------------------------
  // Laws of the session cookie

  /** Only a granted attempt changes the cookies; a failed one leaves them exactly as they were. */
  lemma FailedLoginChangesNothing(cookies: map<string, Cookie>, r: Resolution, nodeEnv: string)
    requires !r.Granted?
    ensures CookiesAfterLogin(cookies, r, nodeEnv) == cookies
  {
  }

  /** The session cookie is HttpOnly, lives one week on path "/" with SameSite lax, and is Secure exactly in production. */
  lemma SessionCookieAttributes(cookies: map<string, Cookie>, r: Resolution, nodeEnv: string)
    requires r.Granted?
    ensures var c := CookiesAfterLogin(cookies, r, nodeEnv)[AuthCookie];
      c.options.httpOnly && c.options.maxAge == 604800 && c.options.path == "/" && c.options.sameSite == "lax"
      && (c.options.secure <==> nodeEnv == "production")
  {
  }

  /** Logging in and then reading returns the granted token; other cookies are untouched. */
  lemma LoginThenRead(cookies: map<string, Cookie>, r: Resolution, nodeEnv: string)
    requires r.Granted?
    ensures AuthTokenOf(CookiesAfterLogin(cookies, r, nodeEnv)) == Some(r.token)
    ensures forall name :: name != AuthCookie && name in cookies ==>
      name in CookiesAfterLogin(cookies, r, nodeEnv) && CookiesAfterLogin(cookies, r, nodeEnv)[name] == cookies[name]
  {
  }

  /** Two logins in a row, the second successful: the second token is read back, as if the first never happened. */
  lemma LastLoginWins(cookies: map<string, Cookie>, first: Resolution, second: Resolution, nodeEnv: string)
    requires second.Granted?
    ensures AuthTokenOf(CookiesAfterLogin(CookiesAfterLogin(cookies, first, nodeEnv), second, nodeEnv)) == Some(second.token)
    ensures CookiesAfterLogin(CookiesAfterLogin(cookies, first, nodeEnv), second, nodeEnv) == CookiesAfterLogin(cookies, second, nodeEnv)
  {
  }

  /** After logout nothing is read, whatever was there, and logging out twice is logging out once. */
  lemma LogoutClears(cookies: map<string, Cookie>)
    ensures AuthTokenOf(cookies - {AuthCookie}) == None
    ensures (cookies - {AuthCookie}) - {AuthCookie} == cookies - {AuthCookie}
  {
  }

  // ---------------------------------------------------------------------
  // Two complete sessions

  /**
   * Log in with a known role, read, log out, read: the role's token is read
   * while logged in (admin_001 for "administrator") and nothing afterwards.
   */
  method LoginLogoutSession(nodeEnv: string, role: string) returns (result: LoginResult, duringSession: Option<string>, afterLogout: Option<string>)
    requires role in MockTokens
    ensures result == Redirected("/")
    ensures duringSession == Some(MockTokens[role])
    ensures afterLogout == None
  {
    var jar := new CookieJar();
    KnownRoleResolves(role, "", "");
    assert "" + role + "" == role;
    result := Login(jar, MockTokens, nodeEnv, [FormDataValue(RoleForm(role))]);
    duringSession := GetAuthToken(jar);
    var _ := Logout(jar);
    afterLogout := GetAuthToken(jar);
  }

  /**
   * Log in with a known role, then submit a name that is not a role (such as
   * "superadmin"): the second attempt fails and the first session stays.
   */
  method UnknownRoleKeepsSession(nodeEnv: string, role: string, unknown: string) returns (result: LoginResult, before: Option<string>, after: Option<string>)
    requires role in MockTokens && Trim(unknown) !in MockTokens
    ensures result == Failed(InvalidRoleMessage)
    ensures before == after == Some(MockTokens[role])
  {
    var jar := new CookieJar();
    KnownRoleResolves(role, "", "");
    assert "" + role + "" == role;
    var _ := Login(jar, MockTokens, nodeEnv, [FormDataValue(RoleForm(role))]);
    before := GetAuthToken(jar);
    UnknownRoleRejected(MockTokens, unknown);
    result := Login(jar, MockTokens, nodeEnv, [FormDataValue(RoleForm(unknown))]);
    after := GetAuthToken(jar);
  }
}
