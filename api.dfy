/**
 * The API client of src/lib/api.ts.
 *
 * Every public method of the client builds an endpoint path and request options
 * (`RequestOf`), and `Send` either answers them from the fixtures (mock mode,
 * `Dispatch`) or sends them over the network with JSON and bearer-token headers
 * (live mode, `Headers`, `LiveOutcome`). Mock mode is chosen once, from two
 * environment values (`UseMock`).
 *
 * A request body is the JSON object a public method serialises. It is modelled
 * as a record of the keys those methods use; a key a method leaves out reads as
 * the empty string, which the dispatcher treats as it treats a missing key.
 */
module Api {
  import opened Wrappers
  import opened Strings
  import opened Types
  import opened MockData
  import Browser

  // ----- Configuration -----

  /** The two environment values: `NEXT_PUBLIC_USE_MOCK` and `NEXT_PUBLIC_API_URL`. */
  datatype Env = Env(useMockFlag: Option<string>, apiUrl: Option<string>)

  const DEFAULT_BASE_URL := "http://localhost:3001/api"

  /**
   * `USE_MOCK`: the flag is exactly "true", or no API URL is configured. An
   * empty URL counts as none; out of mock mode the requests go to the
   * configured URL.
   */
  function UseMock(env: Env): (b: bool)
    ensures b <==> env.useMockFlag == Some("true") || env.apiUrl.None? || env.apiUrl == Some("")
    ensures !b ==> BaseUrl(env) == env.apiUrl.value
  {
    env.useMockFlag == Some("true") || !OptTruthy(env.apiUrl)
  }

  /** `API_BASE_URL`: the configured URL, or the local default. */
  function BaseUrl(env: Env): (u: string)
    ensures u != ""
    ensures OptTruthy(env.apiUrl) ==> u == env.apiUrl.value
  {
    OrElse(env.apiUrl, DEFAULT_BASE_URL)
  }

  // ----- Requests -----

  /** The parsed request body: the keys the public methods send. */
  datatype Body = Body(
    email: string,
    password: string,
    name: string,
    originalContent: string,
    jobDescription: string,
    templateUsed: string,
    resumeId: string,
    companyName: string,
    priceId: string,
    content: Option<PortfolioContent>)

  /** `{}`: what the dispatcher parses when a request has no body. */
  const EMPTY_BODY := Body("", "", "", "", "", "", "", "", "", None)

  /** The `RequestInit` options a public method passes: an HTTP method and a body, each optional. */
  datatype Options = Options(httpMethod: Option<string>, body: Option<Body>)

  datatype Request = Request(endpoint: string, options: Options)

  /** The public methods of the client, with their arguments. */
  datatype ApiCall =
    | Login(email: string, password: string)
    | Register(name: string, email: string, password: string)
    | CreateResume(originalContent: string, jobDescription: string, templateUsed: Option<string>)
    | GetResumes
    | GetResume(id: string)
    | DeleteResume(id: string)
    | RewriteResume(resumeId: string, jobDescription: string)
    | GenerateCoverLetter(resumeId: string, companyName: string)
    | CalculateCompatibility(resumeId: string, jobDescription: string)
    | GeneratePortfolio(resumeId: string)
    | GetPortfolio(id: string)
    | UpdatePortfolio(id: string, content: PortfolioContent)
    | CreateSubscription(priceId: string)
    | GetSubscriptionStatus
    | CancelSubscription

  function Post(endpoint: string, body: Body): Request {
    Request(endpoint, Options(Some("POST"), Some(body)))
  }

  function Get(endpoint: string): Request {
    Request(endpoint, Options(None, None))
  }

  /** The endpoint and options each public method hands to `request`. */
  function RequestOf(c: ApiCall): (r: Request)
    ensures StartsWith(r.endpoint, "/")
    ensures r.options.httpMethod.None? <==> c.GetResumes? || c.GetResume? || c.GetPortfolio? || c.GetSubscriptionStatus?
    ensures r.options.httpMethod.None? ==> r.options.body.None?
  {
    match c
    case Login(email, password) => Post("/auth/login", EMPTY_BODY.(email := email, password := password))
    case Register(name, email, password) =>
      Post("/auth/register", EMPTY_BODY.(name := name, email := email, password := password))
    case CreateResume(originalContent, jobDescription, templateUsed) =>
      Post("/resumes", EMPTY_BODY.(originalContent := originalContent, jobDescription := jobDescription,
                                   templateUsed := templateUsed.GetOr("")))
    case GetResumes => Get("/resumes")
    case GetResume(id) => Get(RESUMES_PREFIX + id)
    case DeleteResume(id) => Request(RESUMES_PREFIX + id, Options(Some("DELETE"), None))
    case RewriteResume(resumeId, jobDescription) =>
      Post("/ai/rewrite-resume", EMPTY_BODY.(resumeId := resumeId, jobDescription := jobDescription))
    case GenerateCoverLetter(resumeId, companyName) =>
      Post("/ai/generate-cover-letter", EMPTY_BODY.(resumeId := resumeId, companyName := companyName))
    case CalculateCompatibility(resumeId, jobDescription) =>
      Post("/ai/calculate-compatibility", EMPTY_BODY.(resumeId := resumeId, jobDescription := jobDescription))
    case GeneratePortfolio(resumeId) => Post("/portfolios/generate", EMPTY_BODY.(resumeId := resumeId))
    case GetPortfolio(id) => Get(PORTFOLIOS_PREFIX + id)
    case UpdatePortfolio(id, content) =>
      Request(PORTFOLIOS_PREFIX + id, Options(Some("PUT"), Some(EMPTY_BODY.(content := Some(content)))))
    case CreateSubscription(priceId) => Post("/subscriptions/create", EMPTY_BODY.(priceId := priceId))
    case GetSubscriptionStatus => Get("/subscriptions/status")
    case CancelSubscription => Request("/subscriptions/cancel", Options(Some("POST"), None))
  }

  // ----- Mock mode -----

  const RESUMES_PREFIX := "/resumes/"
  const PORTFOLIOS_PREFIX := "/portfolios/"
  const MOCK_ACCESS_TOKEN := "mock-access-token"
  const MOCK_REFRESH_TOKEN := "mock-refresh-token"

  /** The clock and random draws a mock resume creation consumes: `Date.now()`, two `new Date().toISOString()`, and one `Math.random()`. */
  datatype Entropy = Entropy(now: nat, createdAt: string, updatedAt: string, random: real)

  predicate ValidEntropy(ent: Entropy) {
    0.0 <= ent.random < 1.0
  }

  /** `options.method || 'GET'`: a given, non-empty method is kept; no method or an empty one means GET. */
  function MethodOf(o: Options): (m: string)
    ensures m != ""
    ensures OptTruthy(o.httpMethod) ==> m == o.httpMethod.value
    ensures !OptTruthy(o.httpMethod) ==> m == "GET"
  {
    OrElse(o.httpMethod, "GET")
  }

  /** `options.body ? JSON.parse(options.body) : {}`: the sent body, or one with no keys set. */
  function BodyOf(o: Options): (b: Body)
    ensures o.body.Some? ==> b == o.body.value
    ensures o.body.None? ==> b == EMPTY_BODY
  {
    o.body.GetOr(EMPTY_BODY)
  }

  function Ok(p: Payload): ApiResponse {
    ApiResponse(true, Some(p), None, None)
  }

  function OkWithMessage(p: Payload, message: string): ApiResponse {
    ApiResponse(true, Some(p), None, Some(message))
  }

  function Failure(error: string): ApiResponse {
    ApiResponse(false, None, Some(error), None)
  }

  /** `resumes.find(r => r.id === id)`: the first resume with that id. */
  function FindById(rs: seq<Resume>, id: string): (r: Option<Resume>)
    ensures r.Some? ==> r.value in rs && r.value.id == id
    ensures r.None? <==> forall i :: 0 <= i < |rs| ==> rs[i].id != id
    ensures r.Some? ==> exists i :: 0 <= i < |rs| && rs[i] == r.value && forall j :: 0 <= j < i ==> rs[j].id != id
  {
    if rs == [] then None
    else if rs[0].id == id then Some(rs[0])
    else
      var rest := FindById(rs[1..], id);
      assert rest.Some? ==> exists i :: 1 <= i < |rs| && rs[i] == rest.value && forall j :: 0 <= j < i ==> rs[j].id != id by {
        if rest.Some? {
          var k :| 0 <= k < |rs[1..]| && rs[1..][k] == rest.value && forall j :: 0 <= j < k ==> rs[1..][j].id != id;
          assert rs[k + 1] == rest.value;
          assert forall j :: 0 <= j < k + 1 ==> rs[j].id != id by {
            forall j | 0 <= j < k + 1 ensures rs[j].id != id {
              if j > 0 { assert rs[j] == rs[1..][j - 1]; }
            }
          }
        }
      }
      assert rest.None? ==> forall i :: 0 <= i < |rs| ==> rs[i].id != id by {
        if rest.None? {
          forall i | 0 <= i < |rs| ensures rs[i].id != id {
            if i > 0 { assert rs[i] == rs[1..][i - 1]; }
          }
        }
      }
      rest
  }

  /** The record a mock `POST /resumes` synthesises. */
  function NewResume(fx: FixtureSet, body: Body, ent: Entropy): (r: Resume)
    requires ValidEntropy(ent)
    ensures r.userId == fx.user.id
    ensures r.jobDescription == body.jobDescription
    ensures r.templateUsed == (if body.templateUsed != "" then body.templateUsed else "modern")
    ensures r.compatibilityScore.Some? && 80 <= r.compatibilityScore.value <= 99
    ensures r.aiGeneratedContent.Some? && r.aiGeneratedContent.value != ""
    ensures StartsWith(r.id, "resume-")
  {
    var score := (ent.random * 20.0).Floor + 80;
    Resume(
      "resume-" + NatToString(ent.now),
      fx.user.id,
      body.originalContent,
      body.jobDescription,
      Some("AI-generated content for: " + (if body.jobDescription != "" then body.jobDescription else "No job description")),
      if body.templateUsed != "" then body.templateUsed else "modern",
      Some(score),
      None,
      ent.createdAt,
      ent.updatedAt)
  }

  /** `handleMockRequest`: the mock dispatch table, tried top to bottom. */
  function Dispatch(fx: FixtureSet, req: Request, ent: Entropy): (r: ApiResponse)
    requires ValidEntropy(ent)
    ensures WellFormed(r)
    ensures !r.success ==> r.error == Some("Invalid credentials") || r.error == Some("Resume not found")
  {
    var verb := MethodOf(req.options);
    var body := BodyOf(req.options);
    var e := req.endpoint;
    if e == "/auth/login" && verb == "POST" then
      if body.email == fx.demo.email && body.password == fx.demo.password then
        Ok(AuthData(fx.user, MOCK_ACCESS_TOKEN, MOCK_REFRESH_TOKEN))
      else
        Failure("Invalid credentials")
    else if e == "/auth/register" && verb == "POST" then
      OkWithMessage(
        AuthData(fx.user.(email := body.email, name := body.name), MOCK_ACCESS_TOKEN, MOCK_REFRESH_TOKEN),
        "User registered successfully")
    else if e == "/resumes" && verb == "GET" then
      Ok(ResumeListData(fx.resumes))
    else if e == "/resumes" && verb == "POST" then
      Ok(ResumeData(NewResume(fx, body, ent)))
    else if StartsWith(e, RESUMES_PREFIX) && verb == "GET" then
      match FindById(fx.resumes, SecondPart(e, RESUMES_PREFIX))
      case Some(resume) => Ok(ResumeData(resume))
      case None => Failure("Resume not found")
    else if StartsWith(e, RESUMES_PREFIX) && verb == "DELETE" then
      ApiResponse(true, None, None, Some("Resume deleted successfully"))
    else if e == "/portfolios/generate" && verb == "POST" then
      OkWithMessage(PortfolioData(fx.portfolio), "Portfolio generated successfully")
    else if StartsWith(e, PORTFOLIOS_PREFIX) && verb == "GET" then
      Ok(PortfolioData(fx.portfolio))
    else if StartsWith(e, PORTFOLIOS_PREFIX) && verb == "PUT" then
      OkWithMessage(PortfolioData(fx.portfolio.(content := body.content)), "Portfolio updated successfully")
    else if e == "/subscriptions/status" && verb == "GET" then
      Ok(SubscriptionData(fx.user.subscriptionStatus, fx.user.subscriptionStatus))
    else
      Ok(EmptyObject)
  }

  // ----- Live mode -----

  const ACCESS_TOKEN_KEY := "accessToken"

  /** `getAccessToken`: the stored token, or `null` where there is no window. */
  method GetAccessToken(host: Browser.Host) returns (token: Option<string>)
    ensures host.hasWindow ==> token == host.Item(ACCESS_TOKEN_KEY)
    ensures !host.hasWindow ==> token.None?
  {
    if !host.hasWindow {
      return None;
    }
    token := host.GetItem(ACCESS_TOKEN_KEY);
  }

  /** The default headers of a live request: JSON, plus a bearer token when one is stored. */
  function Headers(token: Option<string>): (h: map<string, string>)
    ensures "Content-Type" in h && h["Content-Type"] == "application/json"
    ensures "Authorization" in h <==> OptTruthy(token)
    ensures "Authorization" in h ==> h["Authorization"] == "Bearer " + token.value
    ensures h.Keys <= {"Content-Type", "Authorization"}
  {
    var base := map["Content-Type" := "application/json"];
    if OptTruthy(token) then base["Authorization" := "Bearer " + token.value] else base
  }

  /** What `fetch` is given: the full URL, the method, the headers and the body. */
  datatype Outgoing = Outgoing(url: string, httpMethod: Option<string>, headers: map<string, string>, body: Option<Body>)

  /** What the network does with a live request: it throws (transport failure, unparsable body), or answers with a status and a JSON body. */
  datatype Upstream = Threw(message: string) | Answered(ok: bool, json: ApiResponse)

  /** What `request` gives its caller: a response, or a raised error with its message. */
  datatype Outcome = Returned(response: ApiResponse) | Raised(message: string)

  /** The end of the live path: an ok answer is returned as parsed, anything else is raised. */
  function LiveOutcome(up: Upstream): (o: Outcome)
    ensures o.Returned? <==> up.Answered? && up.ok
    ensures o.Returned? ==> o.response == up.json
    ensures up.Threw? ==> o == Raised(up.message)
    ensures up.Answered? && !up.ok ==> o.Raised? && o.message != ""
    ensures up.Answered? && !up.ok && OptTruthy(up.json.error) ==> o.message == up.json.error.value
    ensures up.Answered? && !up.ok && !OptTruthy(up.json.error) ==> o.message == "An error occurred"
  {
    match up
    case Threw(message) => Raised(message)
    case Answered(ok, json) =>
      if !ok then Raised(OrElse(json.error, "An error occurred")) else Returned(json)
  }

  /**
   * `request`: in mock mode, the dispatcher's answer and nothing sent; in live
   * mode, one request with the stored token's headers and the network's outcome.
   * The network's answer is a parameter.
   */
  method Send(env: Env, host: Browser.Host, fx: FixtureSet, req: Request, ent: Entropy, up: Upstream)
    returns (sent: Option<Outgoing>, o: Outcome)
    requires ValidEntropy(ent)
    ensures UseMock(env) ==> sent.None? && o == Returned(Dispatch(fx, req, ent))
    ensures !UseMock(env) ==> o == LiveOutcome(up)
    ensures !UseMock(env) ==> sent.Some? && sent.value.url == BaseUrl(env) + req.endpoint
    ensures !UseMock(env) ==> sent.Some? && sent.value.httpMethod == req.options.httpMethod && sent.value.body == req.options.body
    ensures !UseMock(env) && host.hasWindow ==> sent.Some? && sent.value.headers == Headers(host.Item(ACCESS_TOKEN_KEY))
    ensures !UseMock(env) && !host.hasWindow ==> sent.Some? && sent.value.headers == Headers(None)
  {
    if UseMock(env) {
      return None, Returned(Dispatch(fx, req, ent));
    }
    var token := GetAccessToken(host);
    sent := Some(Outgoing(BaseUrl(env) + req.endpoint, req.options.httpMethod, Headers(token), req.options.body));
    match up
    case Threw(message) =>
      o := Raised(message);
    case Answered(ok, json) =>
      if !ok {
        o := Raised(OrElse(json.error, "An error occurred"));
      } else {
        o := Returned(json);
      }
  }
}
