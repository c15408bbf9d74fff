/**
 * What each public method of the API client gets back in mock mode, stated for
 * any fixture set (the lemmas that need the fixtures' invariants say so), and
 * the envelope and endpoint properties that connect the builders to the
 * dispatch table.
 */
module ApiProperties {
  import opened Wrappers
  import opened Strings
  import opened Types
  import opened MockData
  import opened Api

  /** Mock login succeeds exactly when both credentials equal the demo identity's, compared as given. */
  lemma MockLogin(fx: FixtureSet, email: string, password: string, ent: Entropy)
    requires ValidEntropy(ent)
    ensures var r := Dispatch(fx, RequestOf(Login(email, password)), ent);
      && (r.success <==> email == fx.demo.email && password == fx.demo.password)
      && (r.success ==> r == ApiResponse(true, Some(AuthData(fx.user, "mock-access-token", "mock-refresh-token")), None, None))
      && (!r.success ==> r == ApiResponse(false, None, Some("Invalid credentials"), None))
  {
  }

  /** Mock registration always succeeds, echoing the name and email into an otherwise unchanged fixture user. */
  lemma MockRegister(fx: FixtureSet, name: string, email: string, password: string, ent: Entropy)
    requires ValidEntropy(ent)
    ensures var r := Dispatch(fx, RequestOf(Register(name, email, password)), ent);
      && r.success && r.error.None? && r.message == Some("User registered successfully")
      && r.data == Some(AuthData(fx.user.(email := email, name := name), "mock-access-token", "mock-refresh-token"))
  {
  }

  /** Mock resume creation: owned by the fixture user, defaults for the template, a score in 80..99, fresh timestamps. */
  lemma MockCreateResume(fx: FixtureSet, originalContent: string, jobDescription: string, templateUsed: Option<string>, ent: Entropy)
    requires ValidEntropy(ent)
    ensures var r := Dispatch(fx, RequestOf(CreateResume(originalContent, jobDescription, templateUsed)), ent);
      && r.success && r.data.Some? && r.data.value.ResumeData?
      && var res := r.data.value.resume;
      && res.userId == fx.user.id
      && res.originalContent == originalContent && res.jobDescription == jobDescription
      && res.templateUsed == (if OptTruthy(templateUsed) then templateUsed.value else "modern")
      && res.compatibilityScore.Some? && 80 <= res.compatibilityScore.value <= 99
      && res.createdAt == ent.createdAt && res.updatedAt == ent.updatedAt
      && res.s3FilePath.None?
  {
  }

  /** `getResume` builds `/resumes/<id>`, a GET; the dispatcher reads back the id unless it itself contains `/resumes/`. */
  lemma ResumeEndpointRoundTrip(id: string)
    requires !Contains(id, RESUMES_PREFIX)
    ensures RequestOf(GetResume(id)) == Request("/resumes/" + id, Options(None, None))
    ensures StartsWith(RequestOf(GetResume(id)).endpoint, RESUMES_PREFIX)
    ensures SecondPart(RequestOf(GetResume(id)).endpoint, RESUMES_PREFIX) == id
  {
    var e := RESUMES_PREFIX + id;
    assert e[|RESUMES_PREFIX|..] == id;
  }

  /** Mock `getResume(id)` answers with exactly the fixture of that id, or "Resume not found". */
  lemma MockGetResume(fx: FixtureSet, id: string, ent: Entropy)
    requires ValidEntropy(ent)
    requires DistinctIds(fx.resumes)
    requires !Contains(id, RESUMES_PREFIX)
    ensures var r := Dispatch(fx, RequestOf(GetResume(id)), ent);
      && (forall i :: 0 <= i < |fx.resumes| && fx.resumes[i].id == id ==> r == ApiResponse(true, Some(ResumeData(fx.resumes[i])), None, None))
      && ((forall i :: 0 <= i < |fx.resumes| ==> fx.resumes[i].id != id) ==> r == ApiResponse(false, None, Some("Resume not found"), None))
  {
    MockGetResumeLookup(fx, id, ent);
    forall i | 0 <= i < |fx.resumes| && fx.resumes[i].id == id
      ensures FindById(fx.resumes, id) == Some(fx.resumes[i])
    {
      var f := FindById(fx.resumes, id);
      var k :| 0 <= k < |fx.resumes| && fx.resumes[k] == f.value && forall j :: 0 <= j < k ==> fx.resumes[j].id != id;
      assert k == i;
    }
  }

  /** Mock `getResume` looks up the part of the id before any second `/resumes/`. */
  lemma MockGetResumeLookup(fx: FixtureSet, id: string, ent: Entropy)
    requires ValidEntropy(ent)
    ensures Dispatch(fx, RequestOf(GetResume(id)), ent)
         == match FindById(fx.resumes, BeforeFirst(id, RESUMES_PREFIX))
            case Some(resume) => Ok(ResumeData(resume))
            case None => Failure("Resume not found")
  {
    var e := RESUMES_PREFIX + id;
    assert e[..|RESUMES_PREFIX|] == RESUMES_PREFIX;
    assert e[|RESUMES_PREFIX|..] == id;
    assert SecondPart(e, RESUMES_PREFIX) == BeforeFirst(id, RESUMES_PREFIX);
    assert e != "/resumes" by { assert |e| >= 9; }
    assert MethodOf(RequestOf(GetResume(id)).options) == "GET";
  }

  /** Whatever follows a second `/resumes/` in the id is ignored: `getResume` looks up only the part before it. */
  lemma MockGetResumeCutsId(fx: FixtureSet, id: string, ent: Entropy)
    requires ValidEntropy(ent)
    ensures Dispatch(fx, RequestOf(GetResume(id)), ent)
         == Dispatch(fx, RequestOf(GetResume(BeforeFirst(id, RESUMES_PREFIX))), ent)
  {
    MockGetResumeLookup(fx, id, ent);
    MockGetResumeLookup(fx, BeforeFirst(id, RESUMES_PREFIX), ent);
    BeforeFirstIdempotent(id, RESUMES_PREFIX);
  }

  /**
   * Mock delete always reports success, with no data. The dispatcher keeps no
   * state, so deleting never touches the fixtures: listing still serves them
   * all.
   */
  lemma MockDeleteResume(fx: FixtureSet, id: string, ent: Entropy)
    requires ValidEntropy(ent)
    ensures Dispatch(fx, RequestOf(DeleteResume(id)), ent)
         == ApiResponse(true, None, None, Some("Resume deleted successfully"))
    ensures Dispatch(fx, RequestOf(GetResumes), ent) == ApiResponse(true, Some(ResumeListData(fx.resumes)), None, None)
  {
    var e := RESUMES_PREFIX + id;
    assert e[..|RESUMES_PREFIX|] == RESUMES_PREFIX;
    assert e[1] == 'r' && |e| >= 9;
  }

  /** Any portfolio id reads the fixture portfolio. */
  lemma MockGetPortfolio(fx: FixtureSet, id: string, ent: Entropy)
    requires ValidEntropy(ent)
    ensures Dispatch(fx, RequestOf(GetPortfolio(id)), ent) == ApiResponse(true, Some(PortfolioData(fx.portfolio)), None, None)
  {
    var e := PORTFOLIOS_PREFIX + id;
    assert e[..|PORTFOLIOS_PREFIX|] == PORTFOLIOS_PREFIX;
    assert e != "/auth/login" && e != "/auth/register" && e != "/resumes" by { assert e[1] == 'p'; }
    assert !StartsWith(e, RESUMES_PREFIX) by { assert e[1] != RESUMES_PREFIX[1]; }
    assert MethodOf(RequestOf(GetPortfolio(id)).options) == "GET";
  }

  /** An update answers with the fixture portfolio whose content, and nothing else, is replaced. */
  lemma MockUpdatePortfolio(fx: FixtureSet, id: string, content: PortfolioContent, ent: Entropy)
    requires ValidEntropy(ent)
    ensures Dispatch(fx, RequestOf(UpdatePortfolio(id, content)), ent)
         == ApiResponse(true, Some(PortfolioData(fx.portfolio.(content := Some(content)))), None, Some("Portfolio updated successfully"))
  {
    var e := PORTFOLIOS_PREFIX + id;
    assert e[..|PORTFOLIOS_PREFIX|] == PORTFOLIOS_PREFIX;
    assert e[1] == 'p' && |e| >= 12;
    assert !StartsWith(e, RESUMES_PREFIX) by { assert e[1] != RESUMES_PREFIX[1]; }
  }

  /** Generation ignores which resume it is given and answers with the fixture portfolio. */
  lemma MockGeneratePortfolio(fx: FixtureSet, resumeId: string, ent: Entropy)
    requires ValidEntropy(ent)
    ensures Dispatch(fx, RequestOf(GeneratePortfolio(resumeId)), ent)
         == ApiResponse(true, Some(PortfolioData(fx.portfolio)), None, Some("Portfolio generated successfully"))
  {
    var e := "/portfolios/generate";
    assert e[1] == 'p';
  }

  /** The subscription status is the fixture user's, as both status and plan. */
  lemma MockSubscriptionStatus(fx: FixtureSet, ent: Entropy)
    requires ValidEntropy(ent)
    ensures Dispatch(fx, RequestOf(GetSubscriptionStatus), ent)
         == ApiResponse(true, Some(SubscriptionData(fx.user.subscriptionStatus, fx.user.subscriptionStatus)), None, None)
  {
    var e := "/subscriptions/status";
    assert e != "/auth/login" && e != "/auth/register" && e != "/resumes" && e != "/portfolios/generate" by {
      assert e[1] == 's';
    }
    assert !StartsWith(e, RESUMES_PREFIX) && !StartsWith(e, PORTFOLIOS_PREFIX) by {
      assert e[1] == 's';
    }
    assert MethodOf(RequestOf(GetSubscriptionStatus).options) == "GET";
  }

  /** The calls the dispatch table has no entry for. */
  predicate Unrouted(c: ApiCall) {
    c.RewriteResume? || c.GenerateCoverLetter? || c.CalculateCompatibility? || c.CreateSubscription? || c.CancelSubscription?
  }

  /** An unrouted call succeeds with the empty object and no error: the fallback is not a failure. */
  lemma MockUnroutedCalls(fx: FixtureSet, c: ApiCall, ent: Entropy)
    requires ValidEntropy(ent)
    requires Unrouted(c)
    ensures Dispatch(fx, RequestOf(c), ent) == ApiResponse(true, Some(EmptyObject), None, None)
  {
    var req := RequestOf(c);
    assert MethodOf(req.options) == "POST";
    assert req.endpoint[1] == 's' || req.endpoint[2] == 'i';
    PostFallback(fx, req, ent);
  }

  /** A POST to none of the POST entries falls through to the empty object. */
  lemma PostFallback(fx: FixtureSet, req: Request, ent: Entropy)
    requires ValidEntropy(ent)
    requires MethodOf(req.options) == "POST"
    requires req.endpoint != "/auth/login" && req.endpoint != "/auth/register"
    requires req.endpoint != "/resumes" && req.endpoint != "/portfolios/generate"
    ensures Dispatch(fx, req, ent) == ApiResponse(true, Some(EmptyObject), None, None)
  {
  }

  /** Which dispatch-table entries can fail, for any request. */
  lemma DispatchFailures(fx: FixtureSet, req: Request, ent: Entropy)
    requires ValidEntropy(ent)
    ensures var r := Dispatch(fx, req, ent);
      !r.success ==>
        (req.endpoint == "/auth/login" && MethodOf(req.options) == "POST" && r.error == Some("Invalid credentials"))
        || (StartsWith(req.endpoint, RESUMES_PREFIX) && MethodOf(req.options) == "GET"
            && FindById(fx.resumes, SecondPart(req.endpoint, RESUMES_PREFIX)).None? && r.error == Some("Resume not found"))
  {
  }

  /** Only `login` posts to `/auth/login`. */
  lemma LoginEndpointOnlyFromLogin(c: ApiCall)
    ensures RequestOf(c).endpoint == "/auth/login" && MethodOf(RequestOf(c).options) == "POST" ==> c.Login?
  {
    var e := RequestOf(c).endpoint;
    if e == "/auth/login" {
      assert e[1] == 'a' && e[2] == 'u' && e[6] == 'l';
    }
  }

  /** Only `getResume` sends a GET below `/resumes/`. */
  lemma ResumeEndpointOnlyFromGetResume(c: ApiCall)
    ensures StartsWith(RequestOf(c).endpoint, RESUMES_PREFIX) && MethodOf(RequestOf(c).options) == "GET" ==> c.GetResume?
  {
    var e := RequestOf(c).endpoint;
    if StartsWith(e, RESUMES_PREFIX) {
      assert |e| >= 9 && e[1] == 'r';
    }
  }

  /** In mock mode a public call fails only for wrong credentials or an unknown resume id. */
  lemma MockFailures(fx: FixtureSet, c: ApiCall, ent: Entropy)
    requires ValidEntropy(ent)
    ensures var r := Dispatch(fx, RequestOf(c), ent);
      !r.success ==>
        (c.Login? && r.error == Some("Invalid credentials"))
        || (c.GetResume? && r.error == Some("Resume not found"))
  {
    DispatchFailures(fx, RequestOf(c), ent);
    LoginEndpointOnlyFromLogin(c);
    ResumeEndpointOnlyFromGetResume(c);
  }

  /** The live path attaches `Authorization: Bearer <t>` exactly when a non-empty token is stored. */
  lemma LiveHeaders(t: string)
    ensures Headers(Some(t)) == if t == "" then map["Content-Type" := "application/json"]
                                else map["Content-Type" := "application/json", "Authorization" := "Bearer " + t]
    ensures Headers(None) == map["Content-Type" := "application/json"]
  {
  }
}
