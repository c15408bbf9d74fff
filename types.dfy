/**
 * The application's records (src/types/index.ts) as value datatypes, and the
 * response envelope every API call returns. Optional TypeScript fields
 * (`field?: T`) are `Option<T>`; numbers that are scores, levels and counts are
 * `int`, the one fractional number (a grade point average) is `real`.
 */
module Types {
  import opened Wrappers

  datatype User = User(
    id: string,
    email: string,
    name: string,
    avatarUrl: Option<string>,
    subscriptionStatus: string,
    usageCount: int,
    createdAt: string,
    updatedAt: string)

  datatype Resume = Resume(
    id: string,
    userId: string,
    originalContent: string,
    jobDescription: string,
    aiGeneratedContent: Option<string>,
    templateUsed: string,
    compatibilityScore: Option<int>,
    s3FilePath: Option<string>,
    createdAt: string,
    updatedAt: string)

  datatype PersonalInfo = PersonalInfo(
    name: string,
    title: string,
    email: string,
    phone: Option<string>,
    location: Option<string>,
    summary: string)

  /** A skill; its level is meant to lie in 1..100. */
  datatype Skill = Skill(name: string, level: int, category: string)

  datatype Experience = Experience(
    company: string,
    position: string,
    startDate: string,
    endDate: Option<string>,
    description: string,
    achievements: seq<string>,
    technologies: seq<string>)

  datatype Project = Project(
    name: string,
    description: string,
    technologies: seq<string>,
    githubUrl: Option<string>,
    liveUrl: Option<string>,
    imageUrl: Option<string>)

  datatype Education = Education(
    institution: string,
    degree: string,
    field: string,
    startDate: string,
    endDate: Option<string>,
    gpa: Option<real>)

  datatype Certification = Certification(name: string, issuer: string, date: string, url: Option<string>)

  datatype SocialLink = SocialLink(platform: string, url: string, icon: string)

  datatype PortfolioContent = PortfolioContent(
    personalInfo: PersonalInfo,
    skills: seq<Skill>,
    experience: seq<Experience>,
    projects: seq<Project>,
    education: seq<Education>,
    certifications: seq<Certification>,
    socialLinks: seq<SocialLink>)

  datatype PortfolioStatus = Building | Deployed | Failed

  /** A portfolio. Its content is optional because an update may carry none. */
  datatype Portfolio = Portfolio(
    id: string,
    userId: string,
    amplifyAppId: Option<string>,
    domainName: Option<string>,
    content: Option<PortfolioContent>,
    status: PortfolioStatus,
    createdAt: string)

  /** The `data` member of a response: one shape per kind of answer, and the empty object `{}`. */
  datatype Payload =
    | AuthData(user: User, accessToken: string, refreshToken: string)
    | ResumeListData(resumes: seq<Resume>)
    | ResumeData(resume: Resume)
    | PortfolioData(portfolio: Portfolio)
    | SubscriptionData(status: string, planType: string)
    | EmptyObject

  /** `ApiResponse<T>`: `{ success, data?, error?, message? }`. */
  datatype ApiResponse = ApiResponse(
    success: bool,
    data: Option<Payload>,
    error: Option<string>,
    message: Option<string>)

  /** The envelope's invariant: a success carries no error; a failure carries an error and no data. */
  predicate WellFormed(r: ApiResponse) {
    (r.success ==> r.error.None?) && (!r.success ==> r.data.None? && r.error.Some?)
  }
}
