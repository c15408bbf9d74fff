/**
 * The registration route of src/app/api/auth/register/route.ts: a POST handler
 * that checks the submitted name, email and password in a fixed order and then
 * either answers from the fixtures (mock mode) or relays the backend's answer.
 * The clock (`Date.now()`) and the backend's reply are parameters.
 */
module Register {
  import opened Wrappers
  import opened Strings
  import opened Types
  import opened MockData
  import Api
  import ApiProperties

  const MIN_PASSWORD_LENGTH := 8
  const MISSING_FIELDS := "Missing required fields"
  const PASSWORD_TOO_SHORT := "Password must be at least 8 characters long"
  const REGISTRATION_FAILED := "Registration failed"
  const REGISTERED := "User registered successfully"

  /** `await request.json()`: a body that does not parse throws; one that parses yields its three fields, each possibly absent. */
  datatype Submitted =
    | Unparsable(message: string)
    | Fields(name: Option<string>, email: Option<string>, password: Option<string>)

  /** The backend's register endpoint: the call (or reading its body) throws, or it replies with a status and a JSON body. */
  datatype Backend = Threw(message: string) | Replied(status: int, json: ApiResponse)

  /** The JSON the route answers with: `{ error }` alone, or a whole envelope. */
  datatype Reply = ErrorOnly(error: string) | Envelope(response: ApiResponse)

  /** The forwarded request: `POST <API_BASE_URL>/auth/register` with the three fields. */
  datatype Forwarded = Forwarded(url: string, name: string, email: string, password: string)

  /** The route's answer (status and body) and the request it forwarded, if any. */
  datatype Handled = Handled(status: int, reply: Reply, forwarded: Option<Forwarded>)

  /** The user a mock registration creates: the fixture user with a fresh `user-<now>` id and the submitted email and name. */
  function RegisteredUser(fx: FixtureSet, now: nat, name: string, email: string): (u: User)
    ensures u.email == email && u.name == name && StartsWith(u.id, "user-")
    ensures u.subscriptionStatus == fx.user.subscriptionStatus && u.usageCount == fx.user.usageCount
    ensures u.avatarUrl == fx.user.avatarUrl && u.createdAt == fx.user.createdAt && u.updatedAt == fx.user.updatedAt
  {
    fx.user.(id := "user-" + NatToString(now), email := email, name := name)
  }

  /** `POST`: the guards in order, then mock or live; anything thrown becomes a 500. */
  function Post(env: Api.Env, fx: FixtureSet, body: Submitted, now: nat, backend: Backend): (h: Handled)
    ensures h.status in {400, 201, 500} || (h.forwarded.Some? && backend.Replied? && h.status == backend.status)
    ensures h.forwarded.Some? ==> !Api.UseMock(env) && body.Fields?
  {
    match body
    case Unparsable(message) => Handled(500, ErrorOnly(OrElse(Some(message), REGISTRATION_FAILED)), None)
    case Fields(name, email, password) =>
      if !OptTruthy(name) || !OptTruthy(email) || !OptTruthy(password) then
        Handled(400, ErrorOnly(MISSING_FIELDS), None)
      else if JsLength(password.value) < MIN_PASSWORD_LENGTH then
        Handled(400, ErrorOnly(PASSWORD_TOO_SHORT), None)
      else if Api.UseMock(env) then
        Handled(201, Envelope(ApiResponse(
          true,
          Some(AuthData(RegisteredUser(fx, now, name.value, email.value), Api.MOCK_ACCESS_TOKEN, Api.MOCK_REFRESH_TOKEN)),
          None,
          Some(REGISTERED))), None)
      else
        var sent := Some(Forwarded(Api.BaseUrl(env) + "/auth/register", name.value, email.value, password.value));
        match backend
        case Threw(message) => Handled(500, ErrorOnly(OrElse(Some(message), REGISTRATION_FAILED)), sent)
        case Replied(status, json) => Handled(status, Envelope(json), sent)
  }

  /** A missing or empty field is reported first, whatever the password's length, and nothing is forwarded. */
  lemma MissingFieldsFirst(env: Api.Env, fx: FixtureSet, name: Option<string>, email: Option<string>, password: Option<string>, now: nat, backend: Backend)
    requires !OptTruthy(name) || !OptTruthy(email) || !OptTruthy(password)
    ensures Post(env, fx, Fields(name, email, password), now, backend) == Handled(400, ErrorOnly(MISSING_FIELDS), None)
  {
  }

  /** With every field present, the password is refused exactly when it is shorter than 8 UTF-16 code units. */
  lemma PasswordLength(env: Api.Env, fx: FixtureSet, name: string, email: string, password: string, now: nat, backend: Backend)
    requires name != "" && email != "" && password != ""
    ensures var h := Post(env, fx, Fields(Some(name), Some(email), Some(password)), now, backend);
      (h == Handled(400, ErrorOnly(PASSWORD_TOO_SHORT), None)) <==> JsLength(password) < MIN_PASSWORD_LENGTH
  {
    var h := Post(env, fx, Fields(Some(name), Some(email), Some(password)), now, backend);
    if JsLength(password) >= MIN_PASSWORD_LENGTH {
      if Api.UseMock(env) {
        assert h.status == 201;
      } else {
        assert h.forwarded.Some?;
      }
    }
  }

  /**
   * A password of at least eight characters passes the length check, whatever
   * plane its characters come from: `length` never counts fewer code units than
   * characters.
   */
  lemma LongEnoughPasses(env: Api.Env, fx: FixtureSet, name: string, email: string, password: string, now: nat, backend: Backend)
    requires name != "" && email != "" && |password| >= MIN_PASSWORD_LENGTH
    ensures JsLength(password) >= MIN_PASSWORD_LENGTH
    ensures Post(env, fx, Fields(Some(name), Some(email), Some(password)), now, backend) != Handled(400, ErrorOnly(PASSWORD_TOO_SHORT), None)
  {
    assert password != "" by { assert |password| != |""|; }
    PasswordLength(env, fx, name, email, password, now, backend);
  }

  /** Valid input in mock mode: 201, and the fixture user with a fresh id and the submitted email and name. */
  lemma MockRegistration(env: Api.Env, fx: FixtureSet, name: string, email: string, password: string, now: nat, backend: Backend)
    requires Api.UseMock(env)
    requires name != "" && email != "" && JsLength(password) >= MIN_PASSWORD_LENGTH
    ensures var h := Post(env, fx, Fields(Some(name), Some(email), Some(password)), now, backend);
      && h.status == 201 && h.forwarded.None?
      && h.reply == Envelope(ApiResponse(true, Some(AuthData(RegisteredUser(fx, now, name, email), "mock-access-token", "mock-refresh-token")), None, Some(REGISTERED)))
  {
    assert password != "";
    assert Api.MOCK_ACCESS_TOKEN == "mock-access-token" && Api.MOCK_REFRESH_TOKEN == "mock-refresh-token";
  }

  /** The route's mock user agrees with the API client's mock registration except for the fresh id. */
  lemma AgreesWithClientMock(fx: FixtureSet, name: string, email: string, password: string, now: nat, ent: Api.Entropy)
    requires Api.ValidEntropy(ent)
    ensures var r := Api.Dispatch(fx, Api.RequestOf(Api.Register(name, email, password)), ent);
      r.data.Some? && r.data.value.AuthData?
      && r.data.value.user.(id := RegisteredUser(fx, now, name, email).id) == RegisteredUser(fx, now, name, email)
  {
    ApiProperties.MockRegister(fx, name, email, password, ent);
  }

  /** Valid input in live mode is forwarded once; the backend's status and body are relayed unchanged, a throw becomes a 500. */
  lemma LiveRegistration(env: Api.Env, fx: FixtureSet, name: string, email: string, password: string, now: nat, backend: Backend)
    requires !Api.UseMock(env)
    requires name != "" && email != "" && JsLength(password) >= MIN_PASSWORD_LENGTH
    ensures var h := Post(env, fx, Fields(Some(name), Some(email), Some(password)), now, backend);
      && h.forwarded == Some(Forwarded(env.apiUrl.value + "/auth/register", name, email, password))
      && (backend.Replied? ==> h.status == backend.status && h.reply == Envelope(backend.json))
      && (backend.Threw? ==> h.status == 500 && h.reply == ErrorOnly(if backend.message != "" then backend.message else REGISTRATION_FAILED))
  {
  }

  /** A body that does not parse gives 500 with the error's message, or "Registration failed" when it has none. */
  lemma UnparsableBody(env: Api.Env, fx: FixtureSet, message: string, now: nat, backend: Backend)
    ensures Post(env, fx, Unparsable(message), now, backend)
         == Handled(500, ErrorOnly(if message != "" then message else REGISTRATION_FAILED), None)
  {
  }
}
