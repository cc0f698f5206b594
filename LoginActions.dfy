/** The server-side PIN login: `loginWithPin` checks the PIN, makes sure one row exists in the
    hosted `profiles` table, and sets the `authenticated` session cookie; `logout` deletes it. */
module LoginActions {
  import opened Browser

  /** The single PIN the server accepts. */
  const ValidPin := "0000"
  const InvalidPinError := "Ung\U{FC}ltige PIN"
  const ProfileCheckError := "Datenbankfehler beim \U{DC}berpr\U{FC}fen des Profils"
  const InsertErrorPrefix := "Datenbankfehler: "
  const UnexpectedError := "Ein unerwarteter Fehler ist aufgetreten."

  const CookieName := "authenticated"
  /** Seven days, in seconds. */
  const SessionMaxAge := 60 * 60 * 24 * 7
  const LoginRoute := "/auth/login"

  /** What `loginWithPin` returns: `{ success: true }` or `{ success: false, error }`. */
  datatype LoginResult = LoginSuccess | LoginFailure(error: string)

  /** The answer to `select("id").limit(1)` on `profiles`: the rows (possibly `null`), a returned
      error, or a thrown one. */
  datatype SelectOutcome = Profiles(rows: Option<seq<string>>) | SelectFailed | SelectThrows

  /** The answer to inserting the one profile row. */
  datatype InsertOutcome = Inserted | InsertFailed(message: string) | InsertThrows

  /** Everything outside the action that decides its course: whether creating the database client
      throws, the two query answers, whether the cookie store throws, and whether the server runs
      in production (which makes the cookie `secure`). */
  datatype LoginEnv = LoginEnv(clientThrows: bool, select: SelectOutcome, insert: InsertOutcome,
                               cookiesThrow: bool, production: bool)

  /** A query sent to the `profiles` table. */
  datatype DbCall = SelectProfileId | InsertProfile

  datatype Cookie = Cookie(value: string, httpOnly: bool, secure: bool, sameSite: string, maxAge: int)

  /** The session cookie a successful login sets: `authenticated=true`, kept for 604800 seconds. */
  function SessionCookie(production: bool): (c: Cookie)
    ensures c.value == "true" && c.maxAge == 604800
    ensures c.httpOnly && c.sameSite == "lax" && c.secure == production
  {
    Cookie("true", true, production, "lax", SessionMaxAge)
  }

  /** The course of one `loginWithPin`: its result, the queries sent, and whether the cookie is set. */
  datatype LoginStep = LoginStep(result: LoginResult, calls: seq<DbCall>, cookieSet: bool)

  /** No profile row came back: the select gave `null` or an empty list. */
  predicate NoProfile(rows: Option<seq<string>>) {
    rows.None? || rows.value == []
  }

  /** The decision `loginWithPin(pin)` takes, from its first check to its `catch`. */
  function Login(pin: string, env: LoginEnv): (r: LoginStep)
    // A wrong PIN fails at once: no query, no cookie.
    ensures pin != ValidPin ==> r == LoginStep(LoginFailure(InvalidPinError), [], false)
    // The cookie is set exactly on success, and success needs the right PIN.
    ensures r.cookieSet <==> r.result == LoginSuccess
    ensures r.result == LoginSuccess ==> pin == ValidPin
    // The queries are the select and then, at most once, the insert; the insert only when the
    // select succeeded with no profile.
    ensures r.calls == [] || r.calls == [SelectProfileId] || r.calls == [SelectProfileId, InsertProfile]
    ensures InsertProfile in r.calls <==>
              pin == ValidPin && !env.clientThrows && env.select.Profiles? && NoProfile(env.select.rows)
    // The two returned database errors and their messages.
    ensures pin == ValidPin && !env.clientThrows && env.select.SelectFailed? ==>
              r.result == LoginFailure(ProfileCheckError)
    ensures InsertProfile in r.calls && env.insert.InsertFailed? ==>
              r.result == LoginFailure(InsertErrorPrefix + env.insert.message)
    // Every failure carries a non-empty message.
    ensures r.result.LoginFailure? ==> r.result.error != ""
  {
    if pin != ValidPin then
      LoginStep(LoginFailure(InvalidPinError), [], false)
    else if env.clientThrows then
      LoginStep(LoginFailure(UnexpectedError), [], false)
    else
      match env.select
      case SelectThrows => LoginStep(LoginFailure(UnexpectedError), [SelectProfileId], false)
      case SelectFailed => LoginStep(LoginFailure(ProfileCheckError), [SelectProfileId], false)
      case Profiles(rows) =>
        if NoProfile(rows) then
          match env.insert
          case InsertThrows => LoginStep(LoginFailure(UnexpectedError), [SelectProfileId, InsertProfile], false)
          case InsertFailed(message) =>
            LoginStep(LoginFailure(InsertErrorPrefix + message), [SelectProfileId, InsertProfile], false)
          case Inserted => Finish([SelectProfileId, InsertProfile], env)
        else
          Finish([SelectProfileId], env)
  }

  /** The last step: setting the cookie, which may throw. */
  function Finish(calls: seq<DbCall>, env: LoginEnv): LoginStep {
    if env.cookiesThrow then LoginStep(LoginFailure(UnexpectedError), calls, false)
    else LoginStep(LoginSuccess, calls, true)
  }

  /** An exception at any step the action reaches (creating the client, either query, the cookie
      store) is caught and reported with the one generic message. */
  lemma ThrowsGiveGenericMessage(env: LoginEnv)
    requires || env.clientThrows
             || env.select.SelectThrows?
             || (env.select.Profiles? && NoProfile(env.select.rows) && env.insert.InsertThrows?)
             || (env.select.Profiles? && (!NoProfile(env.select.rows) || env.insert.Inserted?) && env.cookiesThrow)
    ensures Login(ValidPin, env).result == LoginFailure("Ein unerwarteter Fehler ist aufgetreten.")
  {
  }

  /** The right PIN with working queries always logs in, whether or not a profile existed. */
  lemma ValidPinSucceeds(env: LoginEnv)
    requires !env.clientThrows && !env.cookiesThrow && env.select.Profiles?
    requires NoProfile(env.select.rows) ==> env.insert.Inserted?
    ensures Login(ValidPin, env) ==
              LoginStep(LoginSuccess,
                        if NoProfile(env.select.rows) then [SelectProfileId, InsertProfile] else [SelectProfileId],
                        true)
  {
  }

  /** The server's cookie store for the current request. */
  class CookieStore {
    var cookies: map<string, Cookie>

    constructor (initial: map<string, Cookie>)
      ensures cookies == initial
    {
      cookies := initial;
    }
  }

  /** `loginWithPin(pin)`: its guarded early returns, the queries sent (in order) and the cookie. */
  method LoginWithPin(pin: string, env: LoginEnv, jar: CookieStore) returns (result: LoginResult, calls: seq<DbCall>)
    modifies jar
    ensures var r := Login(pin, env);
            && result == r.result && calls == r.calls
            && jar.cookies == if r.cookieSet then old(jar.cookies)[CookieName := SessionCookie(env.production)]
                              else old(jar.cookies)
  {
    calls := [];
    if pin != ValidPin {
      return LoginFailure(InvalidPinError), calls;
    }
    if env.clientThrows {
      return LoginFailure(UnexpectedError), calls;
    }
    calls := calls + [SelectProfileId];
    if env.select.SelectThrows? {
      return LoginFailure(UnexpectedError), calls;
    }
    if env.select.SelectFailed? {
      return LoginFailure(ProfileCheckError), calls;
    }
    if NoProfile(env.select.rows) {
      calls := calls + [InsertProfile];
      match env.insert {
        case InsertThrows =>
          return LoginFailure(UnexpectedError), calls;
        case InsertFailed(message) =>
          return LoginFailure(InsertErrorPrefix + message), calls;
        case Inserted =>
      }
    }
    if env.cookiesThrow {
      return LoginFailure(UnexpectedError), calls;
    }
    jar.cookies := jar.cookies[CookieName := SessionCookie(env.production)];
    result := LoginSuccess;
  }

  /** `logout`: the session cookie is deleted and the caller redirected to the login page. */
  method Logout(jar: CookieStore) returns (redirectTo: string)
    modifies jar
    ensures jar.cookies == old(jar.cookies) - {CookieName}
    ensures redirectTo == LoginRoute
  {
    jar.cookies := jar.cookies - {CookieName};
    redirectTo := LoginRoute;
  }
}
