# Resume builder front end: a verified model

The system is the Next.js front end of an AI resume and portfolio builder. Most
of it is rendering. Its logic is a set of small decision rules and list updates,
and this project models them:

- the API client (`src/lib/api.ts`): the mode flag, the request built by each
  public method, the mock dispatcher `handleMockRequest` with its fixtures
  (`src/lib/mock-data.ts`), the live path's headers and error rule, and the token
  read from `localStorage`;
- the registration route (`src/app/api/auth/register/route.ts`): its ordered
  guards and its 400 / 201 / 500 / relayed outcomes;
- the NextAuth configuration (`src/lib/auth.ts`): the mock flag, the demo
  credential check of `authorize`, and the `jwt` and `session` callbacks, which
  update the token and session objects in place;
- the route guard (`src/middleware.ts`);
- the token synchroniser (`src/components/providers/session-provider.tsx`),
  which mirrors the session token into the browser store;
- the resume list, upload list and preview components
  (`src/components/resume/*.tsx`), and the dashboard's statistics
  (`src/app/dashboard/page.tsx`).

Layout: one module per source file (`Api`, `ApiProperties`, `MockData`,
`Register`, `Auth`, `Middleware`, `SessionProvider`, `ResumeList`,
`ResumeUpload`, `FilePreview`, `Dashboard`). `src/lib/api.ts` has two: `Api`
models the client, and `ApiProperties` holds what is proved about its mock
dispatcher, one lemma per endpoint. The shared modules are:

- `Types`: the records of `src/types/index.ts` and the `ApiResponse` envelope;
- `Strings`: the JavaScript string built-ins the code uses: `startsWith`,
  `includes`, `split(...)[0]` and `[1]`, `split('/').pop()`, `toLowerCase`,
  `trim`, and `length` in UTF-16 code units;
- `Lists`: `filter` and `map`;
- `Browser`: the window and its `localStorage`, as a class with a map field;
- `Wrappers`: `Option`.

State the source updates in place is a class with `modifies` clauses:

- the browser store;
- the NextAuth token and session objects;
- the resume list, upload list, preview and dashboard component state.

The rest is functions and lemmas.

Nondeterminism comes in as parameters. For the mock create-resume call these are
`Date.now()`, `Math.random()` and the ISO timestamps (`Api.Entropy`). Elsewhere
they are the registration time, the upload ids and tick steps, and the upstream
server's answer (`Api.Upstream`, `Auth.LoginAnswer`, `Register.Backend`).

## Model

| member | source | states |
|---|---|---|
| Api.UseMock | src/lib/api.ts:5 | The client is in mock mode exactly when the flag is `"true"` or the URL is unset or empty. Out of mock mode the base URL is the configured one. |
| Api.BaseUrl | src/lib/api.ts:6 | The base URL is never empty: it is the configured URL when that is non-empty, otherwise the default. |
| Api.RequestOf | src/lib/api.ts:191-284 | Every endpoint starts with `/`. Exactly `getResumes`, `getResume`, `getPortfolio` and `getSubscriptionStatus` send no method, and those send no body. |
| Api.FindById | src/lib/api.ts:128 | `find` returns the first resume with that id, and none exactly when no resume has it. |
| Api.MethodOf | src/lib/api.ts:67 | The dispatcher uses a given non-empty method. No method or an empty one means `GET`. The method is never empty. |
| Api.BodyOf | src/lib/api.ts:68 | The dispatcher reads the body the request carries. A request without one reads as the body with no keys set. |
| Api.NewResume | src/lib/api.ts:108-119 | The synthesised resume belongs to the mock user and keeps the job description. Its template defaults to `modern`, its score lies in 80..99, it has AI content, and its id starts with `resume-`. |
| Api.Dispatch | src/lib/api.ts:63-188 | Every mock answer is a well-formed envelope. The only failures are "Invalid credentials" and "Resume not found". |
| Api.GetAccessToken | src/lib/api.ts:15-22 | With a window the token is the store's `accessToken` entry, or none. Without a window it is none. |
| Api.Headers | src/lib/api.ts:39-46 | `Content-Type: application/json` is always present. `Authorization: Bearer <t>` is present exactly when the token is non-empty. No other header is present. |
| Api.LiveOutcome | src/lib/api.ts:48-60 | An ok answer returns its body unchanged. A non-ok answer raises the body's `error`, or "An error occurred" when that is empty. A failed fetch re-raises its error. |
| Api.Send | src/lib/api.ts:24-61 | In mock mode nothing is sent and the mock answer is returned. Otherwise the request goes to base URL + endpoint with the caller's method, body and the token headers, and the outcome follows the live rule. |
| ApiProperties.MockLogin | src/lib/api.ts:71-86 | Mock login succeeds with the mock user and both mock tokens exactly when email and password equal the demo credentials. Otherwise it fails with "Invalid credentials" and no data. |
| ApiProperties.MockRegister | src/lib/api.ts:88-98 | Mock register always succeeds with the message "User registered successfully". The user is the mock user with the request's email and name. |
| ApiProperties.MockCreateResume | src/lib/api.ts:108-124 | Mock create keeps the content and job description and belongs to the mock user. The template defaults to `modern`, the score lies in 80..99, the timestamps are the clock's, and there is no file path. |
| ApiProperties.ResumeEndpointRoundTrip | src/lib/api.ts:126-127 | `getResume(id)` builds a GET of `/resumes/<id>`. When the id does not itself contain `/resumes/`, the dispatcher reads the same id back. |
| ApiProperties.MockGetResume | src/lib/api.ts:126-139 | For fixtures with distinct ids, `getResume(id)` answers with exactly the fixture of that id. When no fixture has that id it fails with "Resume not found". |
| ApiProperties.MockGetResumeLookup | src/lib/api.ts:126-139 | `getResume` looks up the part of the id before any second `/resumes/`, and answers with the resume found or "Resume not found". |
| ApiProperties.MockGetResumeCutsId | src/lib/api.ts:127 | Two ids that agree up to a second `/resumes/` get the same answer. |
| ApiProperties.MockDeleteResume | src/lib/api.ts:141-146 | Mock delete always succeeds with no data and the message "Resume deleted successfully". The dispatcher keeps no state, so deletion never touches the fixtures and listing still serves them all. |
| ApiProperties.MockGetPortfolio | src/lib/api.ts:157-162 | Any portfolio id reads the fixture portfolio. |
| ApiProperties.MockUpdatePortfolio | src/lib/api.ts:164-170 | An update answers with the fixture portfolio with only its content replaced by the body's. |
| ApiProperties.MockGeneratePortfolio | src/lib/api.ts:149-155 | Generation answers with the fixture portfolio and its message, whatever the resume id. |
| ApiProperties.MockSubscriptionStatus | src/lib/api.ts:173-181 | The subscription status and plan are both the mock user's subscription. |
| ApiProperties.MockUnroutedCalls | src/lib/api.ts:184-187 | The `/ai/*` calls, `createSubscription` and `cancelSubscription` succeed with the empty object and no error. |
| ApiProperties.DispatchFailures | src/lib/api.ts:71-139 | Any failing request is either a POST to `/auth/login` or a GET below `/resumes/` whose id matches no fixture. |
| ApiProperties.LoginEndpointOnlyFromLogin | src/lib/api.ts:191-196 | Only `login` posts to `/auth/login`. |
| ApiProperties.ResumeEndpointOnlyFromGetResume | src/lib/api.ts:217-219 | Only `getResume` issues a GET below `/resumes/`. |
| ApiProperties.MockFailures | src/lib/api.ts:63-188 | Among the public methods, only `login` can fail ("Invalid credentials") and only `getResume` can fail ("Resume not found"). |
| ApiProperties.LiveHeaders | src/lib/api.ts:39-46 | The headers for a token `t`, written out. Only `Content-Type` is sent for no token or an empty one. |
| MockData.DemoUser | src/lib/mock-data.ts:4-9 | The demo email, password and id are non-empty. |
| MockData.MockUser | src/lib/mock-data.ts:12-20 | The mock user's id, email and name are the demo user's, and its subscription is `premium`. |
| MockData.MockResumes | src/lib/mock-data.ts:23-60 | The three fixtures have distinct ids and all belong to the demo user. Their scores lie in 0..100: 92 and 87 with AI content, and none with no AI content for `resume-3`. |
| MockData.MockSkills | src/lib/mock-data.ts:72-81 | Eight skills, each at a level in 1..100. |
| MockData.MockPortfolioContent | src/lib/mock-data.ts:63-160 | The skill levels lie in 1..100, and the personal info carries the demo user's name and email. |
| MockData.MockPortfolio | src/lib/mock-data.ts:163-171 | The portfolio belongs to the demo user, is deployed, and has content whose skill levels are in range. |
| MockData.MockAnalytics | src/lib/mock-data.ts:174-212 | There are 1247 views in total. The page views, the referrer counts and the device counts each sum to that total, and unique visitors do not exceed it. |
| MockData.Fixtures | src/lib/mock-data.ts:4-171 | The fixture set is consistent: the demo and mock users agree, and the resumes have distinct ids and belong to the demo user. |
| Register.RegisteredUser | src/app/api/auth/register/route.ts:31-36 | The new user is the mock user with an id starting `user-` and the request's email and name. |
| Register.Post | src/app/api/auth/register/route.ts:8-60 | The status is 400, 201 or 500, or the upstream status when the request was forwarded. Forwarding happens only in live mode with a parsed body. |
| Register.MissingFieldsFirst | src/app/api/auth/register/route.ts:12-17 | A missing or empty name, email or password gives 400 "Missing required fields", whatever the password's length. |
| Register.PasswordLength | src/app/api/auth/register/route.ts:19-24 | With all fields present, the answer is 400 "Password must be at least 8 characters long" exactly when the password is shorter than 8 UTF-16 code units. |
| Register.LongEnoughPasses | src/app/api/auth/register/route.ts:19-24 | A password of at least eight characters, from any plane, has a `length` of at least 8. With the other fields present, it never gets the too-short answer. |
| Register.MockRegistration | src/app/api/auth/register/route.ts:27-42 | Valid input in mock mode gives 201 and nothing forwarded. The envelope holds the new user, both mock tokens and "User registered successfully". |
| Register.AgreesWithClientMock | src/app/api/auth/register/route.ts:31-36 | Apart from the id, the route's new user is the user the client's mock register returns. |
| Register.LiveRegistration | src/app/api/auth/register/route.ts:44-59 | Valid input in live mode is forwarded to `<url>/auth/register`. The upstream status and body are relayed unchanged; a failed fetch gives 500 with its message, or "Registration failed". |
| Register.UnparsableBody | src/app/api/auth/register/route.ts:53-59 | A body that does not parse gives 500 with the parser's message, or "Registration failed". |
| Auth.UseMock | src/lib/auth.ts:14-17 | The provider is in mock mode exactly when the flag is `"true"`, the URL is unset, or the URL is whitespace throughout (the empty URL included). |
| Auth.MockSettingsDiffer | src/lib/auth.ts:14-17 | The client's mock mode implies the provider's. They differ exactly when the flag is not `"true"` and the URL is non-empty but blank. |
| Auth.BlankUrlSplitsModes | src/lib/auth.ts:14-17 | A one-space URL puts the provider in mock mode and the client in live mode. |
| Auth.DemoMatch | src/lib/auth.ts:47-50 | A match needs the exact demo password and the trimmed, lower-cased emails to agree. An email equal to the demo email up to letter case matches. For the fixture, a match happens exactly when the trimmed, lower-cased email is `demo@example.com` and the password is `demo123`. |
| Auth.DemoAuthUser | src/lib/auth.ts:66-73 | A demo sign-in returns the mock user's id, name, email and subscription, with the tokens `mock-access-token` and `mock-refresh-token`. |
| Auth.LiveUser | src/lib/auth.ts:93-101 | A user is built exactly from an ok answer carrying a user and a non-empty access token. Its id, name, email and tokens are the answer's. Its subscription is the answer user's camel-case `subscriptionStatus`. |
| Auth.LiveUserIgnoresSnakeStatus | src/lib/auth.ts:98 | A snake-case `subscription_status` on the answer's user never changes the user signed in. |
| Auth.Authorize | src/lib/auth.ts:40-110 | A missing or empty email or password gives null and sends nothing. A request is sent only in live mode, to `<url>/auth/login` with the raw credentials. Every user returned carries an access token. |
| Auth.AuthorizeDemo | src/lib/auth.ts:46-74 | Demo credentials give the mock user with both mock tokens in either mode, before any request. |
| Auth.AuthorizeMockMode | src/lib/auth.ts:76-109 | In mock mode nothing is sent, and a user is returned exactly for the demo credentials. |
| Auth.AuthorizeLiveMode | src/lib/auth.ts:76-106 | In live mode, non-demo credentials are posted to the login endpoint and the user comes from the answer. An error or a non-ok answer gives null. |
| Auth.MockLoginImpliesAuthorize | src/lib/auth.ts:47-50 | Credentials the client's mock login accepts also pass `authorize`'s demo check. |
| Auth.DemoEmailNormal | src/lib/auth.ts:47-49 | The demo email is already trimmed and lower-case. |
| Auth.PaddedEmailNormal | src/lib/auth.ts:47-49 | ` DEMO@example.com` normalises to the demo email. |
| Auth.NormalisedEmailOnlyHere | src/lib/auth.ts:47-49 | ` DEMO@example.com` with the demo password signs in through `authorize` but is refused by the client's mock login, which compares exactly. |
| Auth.JwtUpdate | src/lib/auth.ts:117-125 | With a user, the id, subscription and both tokens are copied into the claims. Without one the claims are unchanged. The other claims are always kept. |
| Auth.JwtIdempotent | src/lib/auth.ts:117-125 | Running the `jwt` callback twice with the same user is running it once. |
| Auth.Jwt | src/lib/auth.ts:117-125 | The callback updates the token object in place as `JwtUpdate` says and returns the same object. |
| Auth.SessionUpdate | src/lib/auth.ts:126-133 | With a token, the id and subscription go to the session user and the access token to the session. Without one nothing changes. |
| Auth.SessionIgnoresRefreshToken | src/lib/auth.ts:126-133 | The refresh token never reaches the session. |
| Auth.SignInReachesSession | src/lib/auth.ts:117-133 | After sign-in, the session shows the user's id, subscription and access token. |
| Auth.SnakeStatusNeverReachesSession | src/lib/auth.ts:93-129 | In live mode, an answer whose user has no camel-case `subscriptionStatus` signs in a user whose session has no subscription, whatever the snake-case key holds. |
| Auth.SessionCallback | src/lib/auth.ts:126-133 | The callback updates the session and its user in place as `SessionUpdate` says and returns the same session. |
| Middleware.IsLoggedIn | src/middleware.ts:4 | A visitor is signed in exactly when the request carries a session, even one with no access token. |
| Middleware.MatchesSection | src/middleware.ts:20-24 | `<base>/:path*` matches exactly the paths that start with the base and either end there or go on with `/`. |
| Middleware.Matched | src/middleware.ts:18-26 | The middleware runs exactly on the paths of the five listed sections. |
| Middleware.Decide | src/middleware.ts:3-16 | A redirect, if any, goes to `/auth/login` or `/dashboard`. |
| Middleware.Guard | src/middleware.ts:3-26 | Paths outside the matcher pass through. Matched paths are decided on whether `req.auth` is present. |
| Middleware.GuardSeesOnlyPresence | src/middleware.ts:4-15 | Two requests for the same path get the same answer when both carry a session or neither does. |
| Middleware.DecideRules | src/middleware.ts:8-16 | The answer is `/auth/login` iff the path starts `/dashboard` while logged out, and `/dashboard` iff it starts `/auth` while logged in. Otherwise the request passes through. |
| Middleware.AtMostOneRule | src/middleware.ts:8-15 | The two rules never both apply, since no path starts with both prefixes. |
| Middleware.NoRedirectLoop | src/middleware.ts:8-26 | A redirect target is matched and passes through under the same login state. |
| Middleware.SignedOutElsewherePasses | src/middleware.ts:18-26 | The matched `/resumes`, `/portfolio` and `/settings` paths pass through whatever the login state. |
| Middleware.SignedOutDashboard | src/middleware.ts:8-10 | A matched dashboard path sends a logged-out user to `/auth/login`. |
| Middleware.PrefixWiderThanMatcher | src/middleware.ts:8-20 | `/dashboards` satisfies the handler's prefix test, but the matcher never hands it to the handler. |
| SessionProvider.SessionToken | src/components/providers/session-provider.tsx:14 | The token is the session's access token, or none without a session. |
| SessionProvider.SameKeyAsClient | src/components/providers/session-provider.tsx:17 | The synchroniser writes the key the API client reads. |
| SessionProvider.SyncedStore | src/components/providers/session-provider.tsx:13-21 | Without a window the store is unchanged. Otherwise a non-empty token is stored under `accessToken`, and an absent or empty one removes it. No other key changes. |
| SessionProvider.SyncIdempotent | src/components/providers/session-provider.tsx:13-21 | Syncing the same session twice equals syncing once. |
| SessionProvider.SyncForgetsPrevious | src/components/providers/session-provider.tsx:16-20 | The result does not depend on what the store held under `accessToken` before. |
| SessionProvider.TokenSync | src/components/providers/session-provider.tsx:13-21 | The effect leaves the browser store as `SyncedStore` says. |
| SessionProvider.SyncThenRead | src/components/providers/session-provider.tsx:13-21 | After a sync with a window, the API client reads the session's token, or none for an absent or empty one. |
| Browser.Host.Item | src/lib/api.ts:18 | `getItem` returns the stored value, or none for an absent key. |
| Browser.Host.GetItem | src/lib/api.ts:18 | Reading a key returns what the store holds under it, or none. With a window only. |
| Browser.Host.SetItem | src/components/providers/session-provider.tsx:17 | `setItem` stores the value under the key and changes nothing else. |
| Browser.Host.RemoveItem | src/components/providers/session-provider.tsx:19 | `removeItem` drops the key and changes nothing else. |
| Lists.Filter | src/components/resume/resume-list.tsx:80 | `filter` is never longer than its input. Every element it keeps passes and comes from the input, and every passing element is kept. |
| Lists.Map | src/components/resume/resume-list.tsx:61 | `map` keeps the length and applies the function at each position. |
| Lists.FilterAppend | src/components/resume/resume-list.tsx:80 | `filter` distributes over concatenation, so the kept elements keep their order. |
| Lists.FilterKeepsAll | src/components/resume/resume-list.tsx:80 | Filtering a list whose every element passes leaves it unchanged. |
| Lists.FilterIdempotent | src/components/resume/resume-upload.tsx:74 | Filtering twice with the same test is filtering once. |
| ResumeList.DisplayName | src/components/resume/resume-list.tsx:39 | An empty job description gives the title `Resume`. |
| ResumeList.DisplayNameOfPosting | src/components/resume/resume-list.tsx:39 | `Role at Company...` is titled `Role Resume` when the role holds no ` at ` of its own. |
| ResumeList.DisplayNameWithoutCompany | src/components/resume/resume-list.tsx:39 | A non-empty description without ` at ` is titled with the whole description plus ` Resume`. |
| ResumeList.FileName | src/components/resume/resume-list.tsx:40 | No path gives `resume.pdf`. A path whose last `/`-segment is non-empty is named by that segment, otherwise `resume.pdf`; a path without `/` names itself. The name is never empty. |
| ResumeList.FileNameOfPath | src/components/resume/resume-list.tsx:40 | The file name of `dir/file` is `file`. |
| ResumeList.FileNameOfDirectory | src/components/resume/resume-list.tsx:40 | A path ending in `/` gets `resume.pdf`. |
| ResumeList.StatusOf | src/components/resume/resume-list.tsx:43 | The status is `draft` iff there is no AI content. It is `optimized` iff there is AI content and a non-zero score, and `generated` iff there is AI content and no score or a zero one. |
| ResumeList.ConvertResume | src/components/resume/resume-list.tsx:36-48 | The id, timestamps, template, score and job description are copied. The title, file name and status are derived as above. |
| ResumeList.StatusName | src/components/resume/resume-list.tsx:43 | The three statuses have three different names: `draft`, `generated` and `optimized`. |
| ResumeList.StatusColor | src/components/resume/resume-list.tsx:87-98 | The colour is green exactly for `optimized`, blue exactly for `generated`, and grey for every other string. |
| ResumeList.StatusColors | src/components/resume/resume-list.tsx:87-98 | An unknown status gets the draft colour, and the three statuses get three different colours. |
| ResumeList.Fetched | src/components/resume/resume-list.tsx:56-72 | A successful list answer is converted and a successful non-list answer gives no rows. A failure envelope, no data or an exception gives exactly the converted fixtures: three rows, `resume-1` to `resume-3`. |
| ResumeList.Without | src/components/resume/resume-list.tsx:80 | Every row left has another id and comes from the list. Every row with another id is left. |
| ResumeList.WithoutProperties | src/components/resume/resume-list.tsx:80-83 | Deletion distributes over concatenation, so the rows left keep their order. A list without that id is unchanged. |
| ResumeList.ResumeListView.constructor | src/components/resume/resume-list.tsx:51-52 | The list starts empty and loading. |
| ResumeList.ResumeListView.FetchResumes | src/components/resume/resume-list.tsx:56-72 | The rows become what the load gives, and loading stops. |
| ResumeList.ResumeListView.DeleteResume | src/components/resume/resume-list.tsx:77-85 | The rows of that id go, the same way whether the API call returns or throws. The loading flag is untouched. |
| ResumeUpload.NewFile | src/components/resume/resume-upload.tsx:26-33 | A dropped file becomes an entry with its name, size and type, the given id, status uploading, progress 0 and no error. |
| ResumeUpload.NewFiles | src/components/resume/resume-upload.tsx:26-33 | There is one new entry per accepted file, in the same order, each with its own id. |
| ResumeUpload.TickFile | src/components/resume/resume-upload.tsx:43-45 | A tick sets progress to `min(p + step, 100)`, and the status is success exactly at 100. Nothing else changes. |
| ResumeUpload.TickBounds | src/components/resume/resume-upload.tsx:43 | With a step in [0, 20), progress never decreases and never passes 100. |
| ResumeUpload.SuccessIsStable | src/components/resume/resume-upload.tsx:43-44 | Once a file has succeeded, further ticks leave it unchanged. |
| ResumeUpload.Ticked | src/components/resume/resume-upload.tsx:41-48 | A tick changes only the entries of that id, each as `TickFile` says, and keeps the length and order. |
| ResumeUpload.TickedValid | src/components/resume/resume-upload.tsx:41-48 | A tick keeps every entry valid: progress in 0..100 and success exactly at 100. |
| ResumeUpload.Removed | src/components/resume/resume-upload.tsx:74 | Every entry left has another id and comes from the list. Every entry with another id is left. |
| ResumeUpload.RemovedProperties | src/components/resume/resume-upload.tsx:73-75 | Removal distributes over concatenation, so the entries left keep their order, and it keeps the list valid. |
| ResumeUpload.Uploader.constructor | src/components/resume/resume-upload.tsx:22-23 | The list starts empty and not uploading. |
| ResumeUpload.Uploader.OnDrop | src/components/resume/resume-upload.tsx:25-36 | The new entries are appended after the existing ones and the upload is marked as running. The list stays valid. |
| ResumeUpload.Uploader.Tick | src/components/resume/resume-upload.tsx:40-49 | One tick of the file of that id. The list stays valid. |
| ResumeUpload.Uploader.RemoveFile | src/components/resume/resume-upload.tsx:73-75 | The entries of that id go. The list stays valid. |
| FilePreview.JsRemainder | src/components/resume/file-preview.tsx:49 | JavaScript's `%`: Euclidean on non-negative operands, and always smaller than the divisor in magnitude. |
| FilePreview.Apply | src/components/resume/file-preview.tsx:47-53 | Zoom in gives `min(s + 0.2, 3)` and zoom out gives `max(s - 0.2, 0.5)`, both keeping the rotation. Rotate gives `(r + 90) % 360` and keeps the scale. Reset gives scale 1 and rotation 0. |
| FilePreview.InitialReachable | src/components/resume/file-preview.tsx:30-31 | The initial view, scale 1 and rotation 0, is within bounds. |
| FilePreview.ApplyKeepsBounds | src/components/resume/file-preview.tsx:47-53 | Every control keeps the scale in [0.5, 3] and the rotation in {0, 90, 180, 270}. |
| FilePreview.ApplyAll | src/components/resume/file-preview.tsx:47-53 | Any sequence of controls from a view within bounds stays within bounds. |
| FilePreview.ApplyAllSnoc | src/components/resume/file-preview.tsx:47-53 | The controls act in the order pressed: one more control acts on the view the earlier ones left. |
| FilePreview.FourRotations | src/components/resume/file-preview.tsx:49 | Four rotations are the identity. |
| FilePreview.ResetRestores | src/components/resume/file-preview.tsx:50-53 | Reset brings back the initial view after any sequence of controls. |
| FilePreview.Preview.constructor | src/components/resume/file-preview.tsx:30-31 | The preview starts at the initial view. |
| FilePreview.Preview.ZoomInButton | src/components/resume/file-preview.tsx:47 | The view becomes the zoomed-in one. |
| FilePreview.Preview.ZoomOutButton | src/components/resume/file-preview.tsx:48 | The view becomes the zoomed-out one. |
| FilePreview.Preview.RotateButton | src/components/resume/file-preview.tsx:49 | The view becomes the rotated one. |
| FilePreview.Preview.ResetButton | src/components/resume/file-preview.tsx:50-53 | The view becomes the initial one. |
| FilePreview.FileIcon | src/components/resume/file-preview.tsx:41-45 | The PDF icon is chosen iff the type contains `pdf`. The image icon is chosen iff it contains `image` and not `pdf`. |
| FilePreview.ShowsPdfPage | src/components/resume/file-preview.tsx:115 | The mock PDF page is shown exactly for the files with the PDF icon. |
| FilePreview.PdfBeforeImage | src/components/resume/file-preview.tsx:42-43 | `image/pdf` gets the PDF icon: the PDF test comes first. |
| Dashboard.AiCount | src/app/dashboard/page.tsx:49-51 | The AI count never exceeds the number of resumes. |
| Dashboard.StatsFor | src/app/dashboard/page.tsx:56-61 | The counts are the list's length and its AI count, with one portfolio and the session's subscription or `Free`. |
| Dashboard.AiCountAppend | src/app/dashboard/page.tsx:49-51 | The AI count of two lists together is the sum of their counts. |
| Dashboard.AiCountAll | src/app/dashboard/page.tsx:49-51 | The AI count equals the total exactly when every resume has AI content. |
| Dashboard.FallbackCounts | src/app/dashboard/page.tsx:65-71 | The fixture fallback is 3 resumes, 2 AI-generated and 1 portfolio. |
| Dashboard.FetchedStats | src/app/dashboard/page.tsx:42-75 | There is always one portfolio, the AI count is at most the total, and the subscription is the session's or `Free`. A list answer is counted. No data, a non-list answer (via the thrown `filter`) or an exception gives the 3 / 2 fallback. |
| Dashboard.SubscriptionOf | src/app/dashboard/page.tsx:60 | The subscription is the session user's, or none without a session. |
| Dashboard.DashboardPage.constructor | src/app/dashboard/page.tsx:27-33 | Stats start at zero with `Free`, loading, with nowhere pushed. |
| Dashboard.DashboardPage.ShowsSpinner | src/app/dashboard/page.tsx:82-91 | The spinner shows while the session loads, and otherwise exactly while the counts load. |
| Dashboard.DashboardPage.OnSession | src/app/dashboard/page.tsx:35-80 | Being unauthenticated pushes `/auth/login`. Being authenticated sets the fetched stats, stops loading and hides the spinner. Any other status leaves the stats and loading flag alone. |
| Strings.IndexOf | src/lib/api.ts:127 | The index found is the first place the pattern occurs. There is none exactly when it occurs nowhere. |
| Strings.BeforeFirst | src/components/resume/resume-list.tsx:39 | `split(sep)[0]` is a prefix that ends at the first occurrence of the separator, or is the whole text when there is none. |
| Strings.BeforeFirstIdempotent | src/lib/api.ts:127 | Cutting at the first separator twice is cutting once. |
| Strings.SecondPart | src/lib/api.ts:127 | `split(sep)[1]` of a text that starts with the separator is the rest up to the next occurrence of the separator, with none before that point, or the whole rest when it does not occur again. |
| Strings.AfterLast | src/components/resume/resume-list.tsx:40 | `split(c).pop()` is a suffix without `c`, preceded by `c` unless it is the whole text. |
| Strings.AfterLastWithout | src/components/resume/resume-list.tsx:40 | A text without `c` is its own last segment. |
| Strings.ToLower | src/lib/auth.ts:48-49 | `toLowerCase` keeps the length and lower-cases each character in place. |
| Strings.TrimStart | src/lib/auth.ts:48-49 | The result is a suffix that does not start with whitespace, and every character dropped is whitespace. |
| Strings.TrimEnd | src/lib/auth.ts:48-49 | The result is a prefix that does not end with whitespace, and every character dropped is whitespace. |
| Strings.Trim | src/lib/auth.ts:47-49 | `trim` gives the part right after the leading whitespace, followed by whitespace only, with no whitespace at either end. A text without whitespace at either end is unchanged. |
| Strings.TrimEmptyIffSpace | src/lib/auth.ts:17 | A text trims to nothing exactly when it is whitespace throughout. |
| Strings.TrimSpaceBefore | src/lib/auth.ts:48-49 | A whitespace character in front never changes the trim. |
| Strings.TrimIdempotent | src/lib/auth.ts:48-49 | Trimming twice is trimming once. |
| Strings.JsLength | src/app/api/auth/register/route.ts:19 | `length` counts UTF-16 code units: between one and two per character, and one each in the basic plane. |
| Strings.NatToString | src/lib/api.ts:110 | A number renders as a non-empty string of decimal digits whose value is the number, with no leading zero when it is positive. |
| Strings.NatToStringInjective | src/lib/api.ts:110 | Different numbers render differently, so ids built from different clock readings differ. |

## Left out

- Network I/O, timers and the clock: every `fetch`, `delay(300)`, `setInterval` and `setTimeout`. Their results come in as parameters: `Api.Upstream`, `Auth.LoginAnswer`, `Register.Backend`, `Api.Entropy`, the upload ids and tick steps.
- `Api.Dispatch` reads a request body that is already structured. `JSON.parse` is not modelled, and a key the public methods do not send reads as the empty string. Only mock register would echo `undefined` where the model has `""`, and no public method leaves those keys out.
- JSON values are modelled as strings and records. Non-string values in a request body or an upstream answer (a numeric password, say) are not modelled.
- The `localStorage` exception path of `getAccessToken`: model reads cannot fail.
- `Api.Headers`: caller-supplied headers are not modelled. `...options` is spread after `headers`, so such headers would replace the defaults, but no public method passes any.
- All logging is dropped: the `console.log` and `console.error` calls of `src/lib/api.ts:58`, `src/lib/auth.ts:53`, `src/lib/auth.ts:64`, `src/lib/auth.ts:103`, `src/app/api/auth/register/route.ts:54` and `src/app/dashboard/page.tsx:63` have no effect on any result.
- Api.Send: the body sent is the ten-key `Body` record, with `""` for every key the method does not set. `JSON.stringify` sends only the keys the method gives, so the model does not capture the exact bytes on the wire.
- `Strings.ToLower` lower-cases ASCII letters only. JavaScript's full Unicode case mapping is not modelled.
- `FilePreview.Apply`: the scale is an exact `real`, where the component uses a float. The clamps are therefore exact here, and float rounding of repeated `± 0.2` is not modelled.
- `ResumeUpload.TickFile`: the progress is an exact `real`, where the component uses floats.
- `formatFileSize` (logarithm, power and `toFixed`) and the zoom percentage display are not modelled: they are float formatting.
- The upload's `error` status is never produced by the component. The model has the value and proves no entry ever reaches it.
- The `setTimeout` that clears `isUploading` after three seconds is not modelled, since it is timer behaviour.
- The NextAuth provider configuration (Google, GitHub, secrets, pages), `useSession`, `Response.redirect` and `URL` belong to the framework.
- All rendering: JSX, icons, styling and the status-icon switches.
- react-dropzone's `accept` and `maxSize` filtering is enforced by the library before `onDrop`.
- The analytics, portfolio, settings, upload and resumes pages are layout or float formatting, and are not part of this model.
- `src/types/index.ts` holds declarations only. It shapes the datatypes in `Types`.
