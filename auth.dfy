/**
 * The authentication configuration of src/lib/auth.ts: its own mock-mode
 * setting, the credentials provider's `authorize` decision, and the `jwt` and
 * `session` callbacks that carry the signed-in user's fields into the token and
 * from the token into the session.
 *
 * `authorize` accepts the demo identity first, in either mode, comparing the
 * email lower-cased and trimmed; otherwise, in live mode only, it asks the
 * backend's login endpoint, whose answer is a parameter.
 *
 * The answer is read key by key. The subscription `authorize` passes on comes
 * from the camel-case key `user.subscriptionStatus`, not from the
 * `subscription_status` key of the project's `User` record.
 */
module Auth {
  import opened Wrappers
  import opened Strings
  import opened Types
  import opened MockData
  import Api
  import ApiProperties

  /** `USE_MOCK` of the auth configuration: the flag is "true", or the URL is unset, empty or whitespace only. */
  function UseMock(env: Api.Env): (b: bool)
    ensures b <==> env.useMockFlag == Some("true") || env.apiUrl.None?
                   || forall i :: 0 <= i < |env.apiUrl.value| ==> IsWhitespace(env.apiUrl.value[i])
  {
    TrimEmptyIffSpace(env.apiUrl.GetOr(""));
    env.useMockFlag == Some("true") || !OptTruthy(env.apiUrl) || (OptTruthy(env.apiUrl) && Trim(env.apiUrl.value) == "")
  }

  /** The two mock settings differ exactly on a non-empty, whitespace-only URL: the auth one is then on, the client one off. */
  lemma MockSettingsDiffer(env: Api.Env)
    ensures Api.UseMock(env) ==> UseMock(env)
    ensures UseMock(env) && !Api.UseMock(env)
        <==> env.useMockFlag != Some("true") && env.apiUrl.Some? && env.apiUrl.value != "" && Trim(env.apiUrl.value) == ""
  {
  }

  /** A URL of one space switches on mock mode for sign-in but not for the API client. */
  lemma BlankUrlSplitsModes()
    ensures UseMock(Api.Env(None, Some(" "))) && !Api.UseMock(Api.Env(None, Some(" ")))
  {
    assert IsWhitespace(" "[0]);
    assert TrimStart(" ") == TrimStart(" "[1..]);
  }

  /** What `authorize` is given; either field may be absent. */
  datatype Credentials = Credentials(email: Option<string>, password: Option<string>)

  /**
   * The user object `authorize` returns to the sign-in flow. Its
   * `subscription_status` and `refreshToken` are copied from keys the backend
   * may leave out, so either may be `undefined`.
   */
  datatype AuthUser = AuthUser(
    id: string,
    name: string,
    email: string,
    subscriptionStatus: Option<string>,
    accessToken: string,
    refreshToken: Option<string>)

  /**
   * `data.user` of a live login answer. `snakeStatus` is its
   * `subscription_status` key, the one the `User` record declares, and
   * `camelStatus` its `subscriptionStatus` key; either may be absent.
   */
  datatype AnswerUser = AnswerUser(
    id: string,
    name: string,
    email: string,
    snakeStatus: Option<string>,
    camelStatus: Option<string>)

  /**
   * What the live login request gives `authorize`: an exception, or a status
   * and the answer's `data.user`, `data.accessToken` and `data.refreshToken`.
   */
  datatype LoginAnswer =
    | LoginThrew
    | LoginAnswered(ok: bool, user: Option<AnswerUser>, accessToken: Option<string>, refreshToken: Option<string>)

  /** The live login request: `POST <API_BASE_URL>/auth/login` with the credentials as given. */
  datatype LoginRequest = LoginRequest(url: string, email: string, password: string)

  /** The result of one `authorize` call: the user (or `null`) and the request sent, if any. */
  datatype Attempt = Attempt(user: Option<AuthUser>, sent: Option<LoginRequest>)

  /**
   * The demo match: email lower-cased and trimmed on both sides, password
   * compared exactly. So the email is matched whatever its letter case, and
   * the password only as it is.
   */
  function DemoMatch(demo: Demo, email: string, password: string): (b: bool)
    ensures b ==> password == demo.password
    ensures b ==> Trim(ToLower(email)) == Trim(ToLower(demo.email))
    ensures ToLower(email) == ToLower(demo.email) && password == demo.password ==> b
    ensures demo == DemoUser() ==> (b <==> Trim(ToLower(email)) == DemoUser().email && password == DemoUser().password)
  {
    DemoEmailNormal();
    Trim(ToLower(email)) == Trim(ToLower(demo.email)) && password == demo.password
  }

  /** The user a demo match signs in: the fixture user's fields and the mock tokens. */
  function DemoAuthUser(fx: FixtureSet): (u: AuthUser)
    ensures u.id == fx.user.id && u.name == fx.user.name && u.email == fx.user.email
    ensures u.subscriptionStatus == Some(fx.user.subscriptionStatus)
    ensures u.accessToken == "mock-access-token" && u.refreshToken == Some("mock-refresh-token")
  {
    AuthUser(fx.user.id, fx.user.name, fx.user.email, Some(fx.user.subscriptionStatus),
             Api.MOCK_ACCESS_TOKEN, Some(Api.MOCK_REFRESH_TOKEN))
  }

  /**
   * The user a live login answer signs in: an ok answer with a user and a
   * truthy access token. The subscription is the answer's camel-case key.
   */
  function LiveUser(ans: LoginAnswer): (u: Option<AuthUser>)
    ensures u.Some? <==> ans.LoginAnswered? && ans.ok && ans.user.Some? && OptTruthy(ans.accessToken)
    ensures u.Some? ==> u.value.accessToken == ans.accessToken.value && u.value.accessToken != ""
    ensures u.Some? ==> u.value.id == ans.user.value.id && u.value.name == ans.user.value.name && u.value.email == ans.user.value.email
    ensures u.Some? ==> u.value.subscriptionStatus == ans.user.value.camelStatus && u.value.refreshToken == ans.refreshToken
  {
    match ans
    case LoginThrew => None
    case LoginAnswered(ok, user, accessToken, refreshToken) =>
      if !ok || user.None? || !OptTruthy(accessToken) then None
      else Some(AuthUser(user.value.id, user.value.name, user.value.email, user.value.camelStatus, accessToken.value, refreshToken))
  }

  /** The answer's `subscription_status` key is never read: changing it changes nothing. */
  lemma LiveUserIgnoresSnakeStatus(ok: bool, user: AnswerUser, accessToken: Option<string>, refreshToken: Option<string>, other: Option<string>)
    ensures LiveUser(LoginAnswered(ok, Some(user.(snakeStatus := other)), accessToken, refreshToken))
         == LiveUser(LoginAnswered(ok, Some(user), accessToken, refreshToken))
  {
  }

  /** `authorize`: missing fields, then the demo match, then (live mode only) the backend. */
  function Authorize(env: Api.Env, fx: FixtureSet, creds: Credentials, ans: LoginAnswer): (a: Attempt)
    ensures !OptTruthy(creds.email) || !OptTruthy(creds.password) ==> a == Attempt(None, None)
    ensures a.sent.Some? ==> !UseMock(env) && a.sent.value == LoginRequest(env.apiUrl.value + "/auth/login", creds.email.value, creds.password.value)
    ensures a.user.Some? ==> a.user.value.accessToken != ""
  {
    if !OptTruthy(creds.email) || !OptTruthy(creds.password) then Attempt(None, None)
    else
      var email := creds.email.value;
      var password := creds.password.value;
      if DemoMatch(fx.demo, email, password) then Attempt(Some(DemoAuthUser(fx)), None)
      else if !UseMock(env) && OptTruthy(env.apiUrl) then
        Attempt(LiveUser(ans), Some(LoginRequest(env.apiUrl.value + "/auth/login", email, password)))
      else Attempt(None, None)
  }

  /** A demo match signs in the fixture user with the mock tokens, in both modes, without a network request. */
  lemma AuthorizeDemo(env: Api.Env, fx: FixtureSet, email: string, password: string, ans: LoginAnswer)
    requires email != "" && password != ""
    requires DemoMatch(fx.demo, email, password)
    ensures Authorize(env, fx, Credentials(Some(email), Some(password)), ans) == Attempt(Some(DemoAuthUser(fx)), None)
  {
  }

  /** In mock mode only the demo identity is accepted, and nothing is sent. */
  lemma AuthorizeMockMode(env: Api.Env, fx: FixtureSet, creds: Credentials, ans: LoginAnswer)
    requires UseMock(env)
    ensures Authorize(env, fx, creds, ans).sent.None?
    ensures Authorize(env, fx, creds, ans).user.Some?
        <==> OptTruthy(creds.email) && OptTruthy(creds.password) && DemoMatch(fx.demo, creds.email.value, creds.password.value)
  {
  }

  /**
   * In live mode a non-demo attempt sends one login request and signs in exactly
   * when the answer is ok and carries a user and an access token; a thrown
   * request, a non-ok status or a missing field gives `null`, never an error.
   */
  lemma AuthorizeLiveMode(env: Api.Env, fx: FixtureSet, email: string, password: string, ans: LoginAnswer)
    requires !UseMock(env)
    requires email != "" && password != "" && !DemoMatch(fx.demo, email, password)
    ensures var a := Authorize(env, fx, Credentials(Some(email), Some(password)), ans);
      && a.sent == Some(LoginRequest(env.apiUrl.value + "/auth/login", email, password))
      && a.user == LiveUser(ans)
      && (ans.LoginThrew? || !ans.ok ==> a.user.None?)
  {
  }

  /** Every credential pair the mock login endpoint accepts, `authorize` accepts too. */
  lemma MockLoginImpliesAuthorize(env: Api.Env, fx: FixtureSet, email: string, password: string, ans: LoginAnswer)
    requires Consistent(fx)
    requires email == fx.demo.email && password == fx.demo.password
    ensures Authorize(env, fx, Credentials(Some(email), Some(password)), ans).user == Some(DemoAuthUser(fx))
  {
  }

  /** The demo email is already in normal form. */
  lemma DemoEmailNormal()
    ensures Trim(ToLower(DemoUser().email)) == DemoUser().email
  {
    var e := DemoUser().email;
    assert ToLower(e) == e;
    assert !IsWhitespace(e[0]) && !IsWhitespace(e[|e| - 1]);
  }

  /** A leading space and capitals normalise away. */
  lemma PaddedEmailNormal()
    ensures Trim(ToLower(" DEMO@example.com")) == DemoUser().email
  {
    PaddedEmailLowered();
    TrimSpaceBefore(' ', DemoUser().email);
    DemoEmailNormal();
  }

  lemma PaddedEmailLowered()
    ensures ToLower(" DEMO@example.com") == [' '] + DemoUser().email
    ensures ToLower(DemoUser().email) == DemoUser().email
  {
  }

  /**
   * The converse fails: `authorize` normalises the email and the mock login does
   * not, so the demo email in capitals with a leading space signs in here and is
   * refused by the mock login endpoint.
   */
  lemma NormalisedEmailOnlyHere(env: Api.Env, fx: FixtureSet, ans: LoginAnswer, ent: Api.Entropy)
    requires Api.ValidEntropy(ent)
    requires fx.demo == DemoUser()
    ensures Authorize(env, fx, Credentials(Some(" DEMO@example.com"), Some("demo123")), ans).user.Some?
    ensures !Api.Dispatch(fx, Api.RequestOf(Api.Login(" DEMO@example.com", "demo123")), ent).success
  {
    var padded := " DEMO@example.com";
    DemoEmailNormal();
    PaddedEmailNormal();
    assert DemoMatch(fx.demo, padded, "demo123");
    AuthorizeDemo(env, fx, padded, "demo123", ans);
    assert padded != fx.demo.email by { assert padded[0] != fx.demo.email[0]; }
    ApiProperties.MockLogin(fx, padded, "demo123", ent);
  }

  // ----- Callbacks -----

  /** The fields of the JSON web token that the callbacks read and write; `standard` holds the claims NextAuth itself sets. */
  datatype Claims = Claims(
    id: Option<string>,
    subscriptionStatus: Option<string>,
    accessToken: Option<string>,
    refreshToken: Option<string>,
    standard: map<string, string>)

  /** `jwt`: when a user has just signed in, copy its four fields into the token; otherwise leave the token alone. */
  function JwtUpdate(c: Claims, user: Option<AuthUser>): (r: Claims)
    ensures user.None? ==> r == c
    ensures user.Some? ==> r.id == Some(user.value.id) && r.subscriptionStatus == user.value.subscriptionStatus
    ensures user.Some? ==> r.accessToken == Some(user.value.accessToken) && r.refreshToken == user.value.refreshToken
    ensures r.standard == c.standard
  {
    match user
    case None => c
    case Some(u) => c.(id := Some(u.id), subscriptionStatus := u.subscriptionStatus,
                       accessToken := Some(u.accessToken), refreshToken := u.refreshToken)
  }

  /** Running `jwt` twice for the same sign-in leaves the token as one run does. */
  lemma JwtIdempotent(c: Claims, user: Option<AuthUser>)
    ensures JwtUpdate(JwtUpdate(c, user), user) == JwtUpdate(c, user)
  {
  }

  /** The token object the `jwt` callback updates in place. */
  class Token {
    var id: Option<string>
    var subscriptionStatus: Option<string>
    var accessToken: Option<string>
    var refreshToken: Option<string>
    var standard: map<string, string>

    constructor (standard: map<string, string>)
      ensures Value() == Claims(None, None, None, None, standard)
    {
      id, subscriptionStatus, accessToken, refreshToken := None, None, None, None;
      this.standard := standard;
    }

    function Value(): Claims
      reads this
    {
      Claims(id, subscriptionStatus, accessToken, refreshToken, standard)
    }
  }

  /** The `jwt` callback: updates the token it is given and returns that same token. */
  method Jwt(token: Token, user: Option<AuthUser>) returns (r: Token)
    modifies token
    ensures r == token
    ensures token.Value() == JwtUpdate(old(token.Value()), user)
  {
    if user.Some? {
      token.id := Some(user.value.id);
      token.subscriptionStatus := user.value.subscriptionStatus;
      token.accessToken := Some(user.value.accessToken);
      token.refreshToken := user.value.refreshToken;
    }
    r := token;
  }

  /** What a session exposes: the user's id and subscription, the access token, and whatever else NextAuth put there. */
  datatype SessionValue = SessionValue(
    userId: Option<string>,
    userSubscriptionStatus: Option<string>,
    accessToken: Option<string>,
    standard: map<string, string>)

  /** `session`: copy id and subscription to the user and the access token to the session, when there is a token. */
  function SessionUpdate(s: SessionValue, token: Option<Claims>): (r: SessionValue)
    ensures token.None? ==> r == s
    ensures token.Some? ==> r.userId == token.value.id && r.userSubscriptionStatus == token.value.subscriptionStatus
    ensures token.Some? ==> r.accessToken == token.value.accessToken
    ensures r.standard == s.standard
  {
    match token
    case None => s
    case Some(c) => s.(userId := c.id, userSubscriptionStatus := c.subscriptionStatus, accessToken := c.accessToken)
  }

  /** The refresh token never reaches the session: two tokens that differ only in it give the same session. */
  lemma SessionIgnoresRefreshToken(s: SessionValue, c: Claims, refresh: Option<string>)
    ensures SessionUpdate(s, Some(c.(refreshToken := refresh))) == SessionUpdate(s, Some(c))
  {
  }

  /** After a sign-in, the session carries the signed-in user's id, subscription and access token. */
  lemma SignInReachesSession(s: SessionValue, c: Claims, user: AuthUser)
    ensures var r := SessionUpdate(s, Some(JwtUpdate(c, Some(user))));
      r.userId == Some(user.id) && r.userSubscriptionStatus == user.subscriptionStatus
      && r.accessToken == Some(user.accessToken)
  {
  }

  /**
   * A live answer whose user carries only the declared `subscription_status`
   * key signs in, but the session it leads to has no subscription.
   */
  lemma SnakeStatusNeverReachesSession(env: Api.Env, fx: FixtureSet, email: string, password: string,
                                       user: AnswerUser, accessToken: string, s: SessionValue, c: Claims)
    requires !UseMock(env)
    requires email != "" && password != "" && !DemoMatch(fx.demo, email, password)
    requires user.camelStatus.None? && accessToken != ""
    ensures var a := Authorize(env, fx, Credentials(Some(email), Some(password)), LoginAnswered(true, Some(user), Some(accessToken), None));
      && a.user.Some?
      && SessionUpdate(s, Some(JwtUpdate(c, a.user))).userSubscriptionStatus.None?
  {
    AuthorizeLiveMode(env, fx, email, password, LoginAnswered(true, Some(user), Some(accessToken), None));
  }

  /** `session.user`, updated in place by the `session` callback. */
  class SessionUser {
    var id: Option<string>
    var subscriptionStatus: Option<string>

    constructor ()
      ensures id.None? && subscriptionStatus.None?
    {
      id, subscriptionStatus := None, None;
    }
  }

  /** The session object: its user, its access token, and the fields NextAuth fills in. */
  class Session {
    var user: SessionUser
    var accessToken: Option<string>
    var standard: map<string, string>

    constructor (user: SessionUser, standard: map<string, string>)
      ensures this.user == user && accessToken.None? && this.standard == standard
    {
      this.user := user;
      accessToken := None;
      this.standard := standard;
    }

    function Value(): SessionValue
      reads this, user
    {
      SessionValue(user.id, user.subscriptionStatus, accessToken, standard)
    }
  }

  /** The `session` callback: updates the session and its user in place and returns the same session. */
  method SessionCallback(session: Session, token: Option<Token>) returns (r: Session)
    modifies session, session.user
    ensures r == session && session.user == old(session.user)
    ensures session.Value() == SessionUpdate(old(session.Value()), if token.Some? then Some(old(token.value.Value())) else None)
  {
    if token.Some? {
      var t := token.value;
      var tid, tsub, tacc := t.id, t.subscriptionStatus, t.accessToken;
      session.user.id := tid;
      session.user.subscriptionStatus := tsub;
      session.accessToken := tacc;
    }
    r := session;
  }
}
