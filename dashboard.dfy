/**
 * The dashboard overview of src/app/dashboard/page.tsx. It sends a signed-out
 * visitor to the login page. For a signed-in one it loads the counts it shows:
 * resumes, AI-generated resumes, portfolios, and the subscription. When the
 * API's answer cannot be used, it falls back to the fixtures.
 */
module Dashboard {
  import opened Wrappers
  import opened Strings
  import opened Types
  import opened MockData
  import opened Lists
  import Api
  import Auth

  /** `useSession`'s status. */
  datatype SessionStatus = Loading | Authenticated | Unauthenticated

  datatype Stats = Stats(totalResumes: nat, aiGenerations: nat, portfolios: nat, subscriptionStatus: string)

  const INITIAL_STATS := Stats(0, 0, 0, "Free")
  const LOGIN_PAGE := "/auth/login"
  const DEFAULT_SUBSCRIPTION := "Free"

  /** Whether a resume has (truthy) AI-generated content. */
  predicate HasAiContent(r: Resume) {
    OptTruthy(r.aiGeneratedContent)
  }

  /** `resumes.filter(r => r.ai_generated_content).length`. */
  function AiCount(resumes: seq<Resume>): (n: nat)
    ensures n <= |resumes|
  {
    |Filter(resumes, HasAiContent)|
  }

  /** Counting distributes over concatenation, so adding resumes never lowers the count. */
  lemma AiCountAppend(xs: seq<Resume>, ys: seq<Resume>)
    ensures AiCount(xs + ys) == AiCount(xs) + AiCount(ys)
  {
    FilterAppend(xs, ys, HasAiContent);
  }

  /** Every resume counts exactly when every resume has AI content. */
  lemma {:induction false} AiCountAll(resumes: seq<Resume>)
    ensures AiCount(resumes) == |resumes| <==> forall i :: 0 <= i < |resumes| ==> HasAiContent(resumes[i])
  {
    if resumes != [] {
      AiCountAll(resumes[1..]);
      assert resumes == [resumes[0]] + resumes[1..];
      AiCountAppend([resumes[0]], resumes[1..]);
      assert Filter([resumes[0]], HasAiContent) == (if HasAiContent(resumes[0]) then [resumes[0]] else []);
      if forall i :: 0 <= i < |resumes| ==> HasAiContent(resumes[i]) {
        assert forall i :: 0 <= i < |resumes[1..]| ==> HasAiContent(resumes[1..][i]) by {
          forall i | 0 <= i < |resumes[1..]| ensures HasAiContent(resumes[1..][i]) {
            assert resumes[1..][i] == resumes[i + 1];
          }
        }
      } else if HasAiContent(resumes[0]) {
        var k :| 0 <= k < |resumes| && !HasAiContent(resumes[k]);
        assert resumes[1..][k - 1] == resumes[k];
      }
    }
  }

  /** The counts for one list of resumes. `mockPortfolio` is an object and so always truthy: one portfolio. */
  function StatsFor(resumes: seq<Resume>, subscription: Option<string>): (s: Stats)
    ensures s.totalResumes == |resumes| && s.aiGenerations == AiCount(resumes) && s.portfolios == 1
    ensures s.subscriptionStatus == OrElse(subscription, DEFAULT_SUBSCRIPTION)
  {
    Stats(|resumes|, AiCount(resumes), 1, OrElse(subscription, DEFAULT_SUBSCRIPTION))
  }

  /** The fixture fallback is three resumes, two of them AI-generated, and one portfolio. */
  lemma FallbackCounts(subscription: Option<string>)
    ensures StatsFor(MockResumes(), subscription) == Stats(3, 2, 1, OrElse(subscription, DEFAULT_SUBSCRIPTION))
  {
    var rs := MockResumes();
    assert rs == [rs[0]] + [rs[1]] + [rs[2]];
    AiCountAppend([rs[0]] + [rs[1]], [rs[2]]);
    AiCountAppend([rs[0]], [rs[1]]);
    assert Filter([rs[0]], HasAiContent) == [rs[0]];
    assert Filter([rs[1]], HasAiContent) == [rs[1]];
    assert Filter([rs[2]], HasAiContent) == [];
  }

  /**
   * `fetchStats`: the answer's data, or the fixtures when it has none. A data
   * value that is not a list makes `filter` throw, and the handler falls back
   * to the fixtures, as it does when the request itself throws. The portfolio
   * count and the subscription never depend on the answer.
   */
  function FetchedStats(outcome: Api.Outcome, subscription: Option<string>): (s: Stats)
    ensures s.portfolios == 1
    ensures s.aiGenerations <= s.totalResumes
    ensures s.subscriptionStatus == (if OptTruthy(subscription) then subscription.value else "Free")
    ensures outcome.Returned? && outcome.response.data.Some? && outcome.response.data.value.ResumeListData?
        ==> s.totalResumes == |outcome.response.data.value.resumes| && s.aiGenerations == AiCount(outcome.response.data.value.resumes)
    ensures outcome.Raised? || outcome.response.data.None? || !outcome.response.data.value.ResumeListData?
        ==> s.totalResumes == 3 && s.aiGenerations == 2
  {
    FallbackCounts(subscription);
    match outcome
    case Raised(_) => StatsFor(MockResumes(), subscription)
    case Returned(response) =>
      match response.data
      case None => StatsFor(MockResumes(), subscription)
      case Some(ResumeListData(resumes)) => StatsFor(resumes, subscription)
      case Some(_) => StatsFor(MockResumes(), subscription)
  }

  /** The session's subscription: `session?.user?.subscription_status`. */
  function SubscriptionOf(session: Option<Auth.SessionValue>): (r: Option<string>)
    ensures session.None? ==> r.None?
    ensures session.Some? ==> r == session.value.userSubscriptionStatus
  {
    if session.Some? then session.value.userSubscriptionStatus else None
  }

  /** The page's state: its counts, whether they are loading, and the pages it asked the router to open. */
  class DashboardPage {
    var stats: Stats
    var isLoading: bool
    var pushed: seq<string>

    constructor ()
      ensures stats == INITIAL_STATS && isLoading && pushed == []
    {
      stats := INITIAL_STATS;
      isLoading := true;
      pushed := [];
    }

    /** The spinner shows while the session or the counts are loading. */
    function ShowsSpinner(status: SessionStatus): (b: bool)
      reads this
      ensures status == Loading ==> b
      ensures status != Loading ==> (b <==> isLoading)
    {
      status == Loading || isLoading
    }

    /**
     * The two effects for one session status: a signed-out visitor is sent to
     * the login page; only a signed-in one has the counts loaded.
     */
    method OnSession(status: SessionStatus, session: Option<Auth.SessionValue>, outcome: Api.Outcome)
      modifies this
      ensures status == Unauthenticated ==> pushed == old(pushed) + [LOGIN_PAGE]
      ensures status != Unauthenticated ==> pushed == old(pushed)
      ensures status == Authenticated ==> stats == FetchedStats(outcome, SubscriptionOf(session)) && !isLoading
      ensures status != Authenticated ==> stats == old(stats) && isLoading == old(isLoading)
      ensures status == Authenticated ==> !ShowsSpinner(status)
    {
      if status == Unauthenticated {
        pushed := pushed + [LOGIN_PAGE];
      }
      if status == Authenticated {
        stats := FetchedStats(outcome, SubscriptionOf(session));
        isLoading := false;
      }
    }
  }
}
