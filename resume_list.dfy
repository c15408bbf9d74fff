/**
 * The resume list of src/components/resume/resume-list.tsx. It converts API
 * resumes into display rows and loads them once, falling back to the fixtures
 * when the API fails. Deleting a row removes it from the list whatever the API
 * answers. It also picks a badge colour for each status.
 */
module ResumeList {
  import opened Wrappers
  import opened Strings
  import opened Types
  import opened MockData
  import opened Lists
  import Api

  datatype DisplayStatus = Draft | Generated | Optimized

  /** One row of the list. */
  datatype DisplayResume = DisplayResume(
    id: string,
    name: string,
    originalName: string,
    createdAt: string,
    updatedAt: string,
    status: DisplayStatus,
    template: string,
    compatibilityScore: Option<int>,
    jobDescription: string)

  const AT_SEPARATOR := " at "
  const RESUME_SUFFIX := " Resume"
  const DEFAULT_NAME := "Resume"
  const DEFAULT_FILE_NAME := "resume.pdf"

  /** The row title: the role before the first " at " of the job description, then " Resume"; plain "Resume" without one. */
  function DisplayName(jobDescription: string): (n: string)
    ensures jobDescription == "" ==> n == DEFAULT_NAME
  {
    if jobDescription == "" then DEFAULT_NAME else BeforeFirst(jobDescription, AT_SEPARATOR) + RESUME_SUFFIX
  }

  /**
   * "Role at Company" is titled "Role Resume", whatever follows the first " at ",
   * provided the role does not already hold " at ", not even across its end.
   */
  lemma DisplayNameOfPosting(role: string, rest: string)
    requires !Contains(role + " at", AT_SEPARATOR)
    ensures DisplayName(role + AT_SEPARATOR + rest) == role + RESUME_SUFFIX
  {
    var jd := role + AT_SEPARATOR + rest;
    var cut := BeforeFirst(jd, AT_SEPARATOR);
    assert OccursAt(jd, AT_SEPARATOR, |role|) by {
      assert jd[|role|..|role| + |AT_SEPARATOR|] == AT_SEPARATOR;
    }
    assert |cut| <= |role|;
    if |cut| < |role| {
      var c := |cut|;
      assert OccursAt(jd, AT_SEPARATOR, c);
      assert jd[..|role| + 3] == role + " at";
      assert jd[c..c + |AT_SEPARATOR|] == (role + " at")[c..c + |AT_SEPARATOR|];
      OccursContains(role + " at", AT_SEPARATOR, c);
      assert false;
    }
    assert cut == jd[..|role|] == role;
  }

  /** Without " at ", the whole description is the title's role. */
  lemma DisplayNameWithoutCompany(jobDescription: string)
    requires jobDescription != "" && !Contains(jobDescription, AT_SEPARATOR)
    ensures DisplayName(jobDescription) == jobDescription + RESUME_SUFFIX
  {
  }

  /** The file name: the last `/`-segment of the storage path, or "resume.pdf" when there is no path or the segment is empty. */
  function FileName(s3FilePath: Option<string>): (n: string)
    ensures n != ""
    ensures n == DEFAULT_FILE_NAME || '/' !in n
    ensures s3FilePath.None? ==> n == DEFAULT_FILE_NAME
    ensures s3FilePath.Some? && AfterLast(s3FilePath.value, '/') != "" ==> n == AfterLast(s3FilePath.value, '/')
    ensures s3FilePath.Some? && AfterLast(s3FilePath.value, '/') == "" ==> n == DEFAULT_FILE_NAME
    ensures s3FilePath.Some? && s3FilePath.value != "" && '/' !in s3FilePath.value ==> n == s3FilePath.value
  {
    AfterLastWithout(s3FilePath.GetOr(""), '/');
    if s3FilePath.None? then DEFAULT_FILE_NAME
    else
      var last := AfterLast(s3FilePath.value, '/');
      if last != "" then last else DEFAULT_FILE_NAME
  }

  /** The file name of `dir/file` is `file`. */
  lemma FileNameOfPath(dir: string, file: string)
    requires file != "" && '/' !in file
    ensures FileName(Some(dir + "/" + file)) == file
  {
    var p := dir + "/" + file;
    var last := AfterLast(p, '/');
    assert p[|p| - |file| - 1] == '/';
    assert p[|p| - |file|..] == file;
  }

  /** A path ending in `/` has an empty last segment, so the default name is used. */
  lemma FileNameOfDirectory(dir: string)
    ensures FileName(Some(dir + "/")) == DEFAULT_FILE_NAME
  {
  }

  /** The status: draft without AI content; with it, optimized when the score is present and non-zero, generated otherwise. */
  function StatusOf(aiGeneratedContent: Option<string>, compatibilityScore: Option<int>): (s: DisplayStatus)
    ensures s == Draft <==> !OptTruthy(aiGeneratedContent)
    ensures s == Optimized <==> OptTruthy(aiGeneratedContent) && compatibilityScore.Some? && compatibilityScore.value != 0
    ensures s == Generated <==> OptTruthy(aiGeneratedContent) && (compatibilityScore.None? || compatibilityScore.value == 0)
  {
    if !OptTruthy(aiGeneratedContent) then Draft
    else if compatibilityScore.Some? && compatibilityScore.value != 0 then Optimized
    else Generated
  }

  /** `convertResume`. */
  function ConvertResume(r: Resume): (d: DisplayResume)
    ensures d.id == r.id && d.createdAt == r.createdAt && d.updatedAt == r.updatedAt
    ensures d.template == r.templateUsed && d.compatibilityScore == r.compatibilityScore && d.jobDescription == r.jobDescription
    ensures d.name == DisplayName(r.jobDescription) && d.originalName == FileName(r.s3FilePath)
    ensures d.status == StatusOf(r.aiGeneratedContent, r.compatibilityScore)
  {
    DisplayResume(
      r.id, DisplayName(r.jobDescription), FileName(r.s3FilePath), r.createdAt, r.updatedAt,
      StatusOf(r.aiGeneratedContent, r.compatibilityScore), r.templateUsed, r.compatibilityScore, r.jobDescription)
  }

  /** The status as the badge names it: three different names. */
  function StatusName(s: DisplayStatus): (r: string)
    ensures r == "draft" <==> s == Draft
    ensures r == "generated" <==> s == Generated
    ensures r == "optimized" <==> s == Optimized
  {
    assert "draft"[0] != "generated"[0] && "draft"[0] != "optimized"[0] && "generated"[0] != "optimized"[0];
    match s
    case Draft => "draft"
    case Generated => "generated"
    case Optimized => "optimized"
  }

  const OPTIMIZED_COLOR := "text-green-600 bg-green-100"
  const GENERATED_COLOR := "text-blue-600 bg-blue-100"
  const DRAFT_COLOR := "text-gray-600 bg-gray-100"

  /** `getStatusColor`: on any string, since the switch has a default, which is the draft colour. */
  function StatusColor(status: string): (c: string)
    ensures c == OPTIMIZED_COLOR <==> status == "optimized"
    ensures c == GENERATED_COLOR <==> status == "generated"
    ensures c == DRAFT_COLOR <==> status != "optimized" && status != "generated"
  {
    assert OPTIMIZED_COLOR[7] != GENERATED_COLOR[7] && OPTIMIZED_COLOR[7] != DRAFT_COLOR[7] && GENERATED_COLOR[7] != DRAFT_COLOR[7];
    if status == "optimized" then OPTIMIZED_COLOR
    else if status == "generated" then GENERATED_COLOR
    else DRAFT_COLOR
  }

  /** An unknown status gets the draft colour, and the three statuses get three different colours. */
  lemma StatusColors(other: string)
    requires other != "optimized" && other != "generated" && other != "draft"
    ensures StatusColor(other) == StatusColor(StatusName(Draft))
    ensures StatusColor(StatusName(Optimized)) != StatusColor(StatusName(Generated))
    ensures StatusColor(StatusName(Optimized)) != StatusColor(StatusName(Draft))
    ensures StatusColor(StatusName(Generated)) != StatusColor(StatusName(Draft))
  {
    assert "draft" != "optimized" && "draft" != "generated" by { assert "draft"[0] != "optimized"[0] && "draft"[0] != "generated"[0]; }
    assert OPTIMIZED_COLOR[7] != GENERATED_COLOR[7] && OPTIMIZED_COLOR[7] != DRAFT_COLOR[7] && GENERATED_COLOR[7] != DRAFT_COLOR[7];
  }

  /**
   * The rows the list shows after the initial load, for what `getResumes`
   * gave: a list answer is converted, a non-list answer gives nothing, a
   * failure or an error gives the three fixtures.
   */
  function Fetched(outcome: Api.Outcome): (rows: seq<DisplayResume>)
    ensures outcome.Returned? && outcome.response.success && outcome.response.data.Some?
            && outcome.response.data.value.ResumeListData?
        ==> rows == Map(outcome.response.data.value.resumes, ConvertResume)
    ensures outcome.Returned? && outcome.response.success && outcome.response.data.Some?
            && !outcome.response.data.value.ResumeListData?
        ==> rows == []
    ensures outcome.Raised? || !outcome.response.success || outcome.response.data.None?
        ==> rows == Map(MockResumes(), ConvertResume)
            && |rows| == 3 && rows[0].id == "resume-1" && rows[1].id == "resume-2" && rows[2].id == "resume-3"
  {
    match outcome
    case Raised(_) => Map(MockResumes(), ConvertResume)
    case Returned(response) =>
      if response.success && response.data.Some? then
        match response.data.value
        case ResumeListData(resumes) => Map(resumes, ConvertResume)
        case _ => []
      else Map(MockResumes(), ConvertResume)
  }

  /** The list without the rows of one id: every row left has another id, and every row of another id is left. */
  function Without(rows: seq<DisplayResume>, id: string): (r: seq<DisplayResume>)
    ensures forall i :: 0 <= i < |r| ==> r[i].id != id && r[i] in rows
    ensures forall i :: 0 <= i < |rows| && rows[i].id != id ==> rows[i] in r
  {
    Filter(rows, (d: DisplayResume) => d.id != id)
  }

  /** Deleting keeps the others in order, and a list without that id is left as it is. */
  lemma WithoutProperties(rows: seq<DisplayResume>, more: seq<DisplayResume>, id: string)
    ensures Without(rows + more, id) == Without(rows, id) + Without(more, id)
    ensures (forall i :: 0 <= i < |rows| ==> rows[i].id != id) ==> Without(rows, id) == rows
  {
    FilterAppend(rows, more, (d: DisplayResume) => d.id != id);
    if forall i :: 0 <= i < |rows| ==> rows[i].id != id {
      FilterKeepsAll(rows, (d: DisplayResume) => d.id != id);
    }
  }

  /** The component's state: the rows shown and whether the first load is still running. */
  class ResumeListView {
    var resumes: seq<DisplayResume>
    var isLoading: bool

    constructor ()
      ensures resumes == [] && isLoading
    {
      resumes := [];
      isLoading := true;
    }

    /** `fetchResumes`: set the rows from the outcome, then stop loading. */
    method FetchResumes(outcome: Api.Outcome)
      modifies this
      ensures resumes == Fetched(outcome) && !isLoading
    {
      match outcome {
        case Raised(_) =>
          resumes := Map(MockResumes(), ConvertResume);
        case Returned(response) =>
          if response.success && response.data.Some? {
            if response.data.value.ResumeListData? {
              resumes := Map(response.data.value.resumes, ConvertResume);
            } else {
              resumes := [];
            }
          } else {
            resumes := Map(MockResumes(), ConvertResume);
          }
      }
      isLoading := false;
    }

    /** `deleteResume`: the rows of that id go, the same way whether the API call succeeds or throws. */
    method DeleteResume(id: string, apiOutcome: Api.Outcome)
      modifies this
      ensures resumes == Without(old(resumes), id) && isLoading == old(isLoading)
    {
      match apiOutcome {
        case Returned(_) =>
          resumes := Without(resumes, id);
        case Raised(_) =>
          resumes := Without(resumes, id);
      }
    }
  }
}
