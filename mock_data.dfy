/**
 * The constant fixtures of src/lib/mock-data.ts that mock mode serves: the demo
 * credentials, the demo user, three resumes, one portfolio and the analytics
 * figures. Each fixture is a function whose postconditions state the data
 * invariants the rest of the application relies on.
 */
module MockData {
  import opened Wrappers
  import opened Types

  /** The demo identity: the one pair of credentials mock mode accepts. */
  datatype Demo = Demo(email: string, password: string, name: string, id: string)

  function DemoUser(): (d: Demo)
    ensures d.email != "" && d.password != "" && d.id != ""
  {
    Demo("demo@example.com", "demo123", "Demo User", "demo-user-123")
  }

  /** The signed-in user of mock mode: the demo identity on a premium plan. */
  function MockUser(): (u: User)
    ensures u.id == DemoUser().id && u.email == DemoUser().email && u.name == DemoUser().name
    ensures u.subscriptionStatus == "premium"
  {
    User(
      DemoUser().id, DemoUser().email, DemoUser().name, None, "premium", 45,
      "2024-01-01T00:00:00Z", "2024-01-15T10:30:00Z")
  }

  /** No two resumes share an id. */
  predicate DistinctIds(rs: seq<Resume>) {
    forall i, j :: 0 <= i < j < |rs| ==> rs[i].id != rs[j].id
  }

  /** Every resume belongs to the user `uid`. */
  predicate OwnedBy(rs: seq<Resume>, uid: string) {
    forall i :: 0 <= i < |rs| ==> rs[i].userId == uid
  }

  /** A score, when present, is a percentage. */
  predicate ScoreInRange(r: Resume) {
    r.compatibilityScore.Some? ==> 0 <= r.compatibilityScore.value <= 100
  }

  // Free-text fixture values, kept as named constants so that proofs about the
  // fixtures need not take the long literals apart.
  const RESUME_1_ORIGINAL := "Software Engineer with 5+ years of experience..."
  const RESUME_1_JOB := "Senior Software Engineer at Google - Full-stack development, React, Node.js"
  const RESUME_1_AI := "Experienced Software Engineer with 5+ years of expertise in full-stack development..."
  const RESUME_2_ORIGINAL := "Product Manager with experience in agile methodologies..."
  const RESUME_2_JOB := "Product Manager at Microsoft - Agile, Product Strategy"
  const RESUME_2_AI := "Strategic Product Manager with proven track record in agile product development..."
  const RESUME_3_ORIGINAL := "UX Designer portfolio and experience..."
  const RESUME_3_JOB := "UX Designer - User research"
  const PROFILE_SUMMARY := "Experienced software engineer with a passion for building scalable web applications and leading technical teams. Specialized in full-stack development with modern JavaScript frameworks."
  const TECH_CORP_ROLE := "Leading development of customer-facing web applications using React and Node.js"
  const TECH_CORP_FEAT_1 := "Increased application performance by 40% through optimization"
  const TECH_CORP_FEAT_2 := "Led migration to microservices architecture"
  const TECH_CORP_FEAT_3 := "Mentored 5 junior developers"
  const STARTUP_ROLE := "Developed and maintained multiple web applications from scratch"
  const STARTUP_FEAT_2 := "Implemented CI/CD pipeline"
  const STARTUP_FEAT_3 := "Reduced deployment time by 60%"
  const SHOP_ABOUT := "Full-stack e-commerce solution with payment integration and inventory management"
  const SHOP_REPO := "https://github.com/demo/ecommerce"
  const SHOP_SITE := "https://demo-ecommerce.com"
  const TASKS_ABOUT := "Collaborative task management tool with real-time updates"
  const TASKS_REPO := "https://github.com/demo/taskapp"
  const ANALYTICS_ABOUT := "Real-time analytics dashboard with data visualization"
  const ANALYTICS_REPO := "https://github.com/demo/analytics"
  const AWS_CERT := "AWS Certified Solutions Architect"
  const AWS_CERT_URL := "https://aws.amazon.com/certification"
  const LINKEDIN_URL := "https://linkedin.com/in/demo"
  const PORTFOLIO_DOMAIN := "demo-portfolio.example.com"

  function MockResumes(): (rs: seq<Resume>)
    ensures |rs| == 3
    ensures DistinctIds(rs)
    ensures OwnedBy(rs, DemoUser().id)
    ensures forall i :: 0 <= i < |rs| ==> ScoreInRange(rs[i])
    ensures rs[0].id == "resume-1" && rs[0].compatibilityScore == Some(92)
    ensures rs[0].aiGeneratedContent.Some? && rs[0].aiGeneratedContent.value != ""
    ensures rs[1].id == "resume-2" && rs[1].compatibilityScore == Some(87)
    ensures rs[1].aiGeneratedContent.Some? && rs[1].aiGeneratedContent.value != ""
    ensures rs[2].id == "resume-3" && rs[2].compatibilityScore.None? && rs[2].aiGeneratedContent.None?
  {
    [
      Resume(
        "resume-1", DemoUser().id,
        RESUME_1_ORIGINAL,
        RESUME_1_JOB,
        Some(RESUME_1_AI),
        "tech-focused", Some(92), Some("/resumes/resume-1.pdf"),
        "2024-01-15T10:30:00Z", "2024-01-15T14:45:00Z"),
      Resume(
        "resume-2", DemoUser().id,
        RESUME_2_ORIGINAL,
        RESUME_2_JOB,
        Some(RESUME_2_AI),
        "modern", Some(87), Some("/resumes/resume-2.pdf"),
        "2024-01-10T09:15:00Z", "2024-01-12T16:20:00Z"),
      Resume(
        "resume-3", DemoUser().id,
        RESUME_3_ORIGINAL,
        RESUME_3_JOB,
        None,
        "creative", None, Some("/resumes/resume-3.pdf"),
        "2024-01-08T11:00:00Z", "2024-01-08T11:00:00Z")
    ]
  }

  /** Every skill level lies in 1..100. */
  predicate SkillLevelsInRange(skills: seq<Skill>) {
    forall i :: 0 <= i < |skills| ==> 1 <= skills[i].level <= 100
  }

  function MockSkills(): (s: seq<Skill>)
    ensures |s| == 8
    ensures SkillLevelsInRange(s)
  {
    [
      Skill("React", 95, "Frontend"),
      Skill("Node.js", 90, "Backend"),
      Skill("TypeScript", 88, "Language"),
      Skill("Python", 85, "Language"),
      Skill("AWS", 80, "Cloud"),
      Skill("Docker", 75, "DevOps"),
      Skill("PostgreSQL", 85, "Database"),
      Skill("GraphQL", 82, "API")
    ]
  }

  function MockPortfolioContent(): (c: PortfolioContent)
    ensures SkillLevelsInRange(c.skills)
    ensures c.personalInfo.name == DemoUser().name && c.personalInfo.email == DemoUser().email
  {
    PortfolioContent(
      PersonalInfo(
        "Demo User", "Senior Software Engineer", "demo@example.com",
        Some("+1 (555) 123-4567"), Some("San Francisco, CA"),
        PROFILE_SUMMARY),
      MockSkills(),
      [
        Experience(
          "Tech Corp", "Senior Software Engineer", "2022-01-01", None,
          TECH_CORP_ROLE,
          [TECH_CORP_FEAT_1,
           TECH_CORP_FEAT_2,
           TECH_CORP_FEAT_3],
          ["React", "Node.js", "TypeScript", "AWS", "Docker"]),
        Experience(
          "StartupXYZ", "Full Stack Developer", "2020-06-01", Some("2021-12-31"),
          STARTUP_ROLE,
          ["Built MVP in 3 months", STARTUP_FEAT_2, STARTUP_FEAT_3],
          ["React", "Python", "PostgreSQL", "Docker"])
      ],
      [
        Project(
          "E-Commerce Platform",
          SHOP_ABOUT,
          ["React", "Node.js", "PostgreSQL", "Stripe"],
          Some(SHOP_REPO), Some(SHOP_SITE), None),
        Project(
          "Task Management App",
          TASKS_ABOUT,
          ["React", "GraphQL", "WebSockets"],
          Some(TASKS_REPO), Some("https://demo-tasks.com"), None),
        Project(
          "Analytics Dashboard",
          ANALYTICS_ABOUT,
          ["React", "D3.js", "Python", "FastAPI"],
          Some(ANALYTICS_REPO), None, None)
      ],
      [
        Education(
          "University of Technology", "Bachelor of Science", "Computer Science",
          "2016-09-01", Some("2020-05-31"), Some(3.8))
      ],
      [
        Certification(
          AWS_CERT, "Amazon Web Services", "2023-03-15",
          Some(AWS_CERT_URL)),
        Certification("React Advanced Patterns", "Frontend Masters", "2022-11-20", None)
      ],
      [
        SocialLink("GitHub", "https://github.com/demo", "github"),
        SocialLink("LinkedIn", LINKEDIN_URL, "linkedin"),
        SocialLink("Twitter", "https://twitter.com/demo", "twitter")
      ])
  }

  function MockPortfolio(): (p: Portfolio)
    ensures p.userId == DemoUser().id
    ensures p.content.Some? && SkillLevelsInRange(p.content.value.skills)
    ensures p.status == Deployed
  {
    Portfolio(
      "portfolio-1", DemoUser().id, Some("demo-portfolio-app"), Some(PORTFOLIO_DOMAIN),
      Some(MockPortfolioContent()), Deployed, "2024-01-12T10:00:00Z")
  }

  datatype PageViews = PageViews(path: string, views: int)
  datatype DailyViews = DailyViews(date: string, views: int)
  datatype SourceCount = SourceCount(source: string, count: int)
  datatype DeviceCount = DeviceCount(kind: string, count: int)

  datatype Analytics = Analytics(
    totalViews: int,
    uniqueVisitors: int,
    avgTimeOnSite: int,  // seconds
    bounceRate: real,
    topPages: seq<PageViews>,
    viewsOverTime: seq<DailyViews>,
    referrers: seq<SourceCount>,
    devices: seq<DeviceCount>)

  function SumPageViews(ps: seq<PageViews>): int {
    if ps == [] then 0 else ps[0].views + SumPageViews(ps[1..])
  }

  function SumSources(ss: seq<SourceCount>): int {
    if ss == [] then 0 else ss[0].count + SumSources(ss[1..])
  }

  function SumDevices(ds: seq<DeviceCount>): int {
    if ds == [] then 0 else ds[0].count + SumDevices(ds[1..])
  }

  /** The breakdowns are consistent with the total: each partitions all views. */
  predicate AnalyticsConsistent(a: Analytics) {
    && 0 <= a.uniqueVisitors <= a.totalViews
    && SumPageViews(a.topPages) == a.totalViews
    && SumSources(a.referrers) == a.totalViews
    && SumDevices(a.devices) == a.totalViews
  }

  function MockAnalytics(): (a: Analytics)
    ensures a.totalViews == 1247
    ensures AnalyticsConsistent(a)
  {
    Analytics(
      1247, 892, 245, 32.5,
      [PageViews("/", 456), PageViews("/experience", 312), PageViews("/projects", 289), PageViews("/contact", 190)],
      [
        DailyViews("2024-01-01", 45), DailyViews("2024-01-02", 52), DailyViews("2024-01-03", 38),
        DailyViews("2024-01-04", 67), DailyViews("2024-01-05", 89), DailyViews("2024-01-06", 102),
        DailyViews("2024-01-07", 95), DailyViews("2024-01-08", 78), DailyViews("2024-01-09", 112),
        DailyViews("2024-01-10", 134), DailyViews("2024-01-11", 156), DailyViews("2024-01-12", 178),
        DailyViews("2024-01-13", 145), DailyViews("2024-01-14", 167)
      ],
      [SourceCount("Direct", 456), SourceCount("Google", 312), SourceCount("LinkedIn", 289), SourceCount("GitHub", 190)],
      [DeviceCount("Desktop", 678), DeviceCount("Mobile", 412), DeviceCount("Tablet", 157)])
  }

  /** What the mock dispatcher reads: the demo identity and the user, resume and portfolio fixtures. */
  datatype FixtureSet = FixtureSet(demo: Demo, user: User, resumes: seq<Resume>, portfolio: Portfolio)

  /** The relations between the fixtures that mock-data.ts builds in. */
  predicate Consistent(fx: FixtureSet) {
    && fx.demo.email != "" && fx.demo.password != ""
    && fx.user.id == fx.demo.id && fx.user.email == fx.demo.email && fx.user.name == fx.demo.name
    && DistinctIds(fx.resumes)
    && OwnedBy(fx.resumes, fx.demo.id)
    && fx.portfolio.userId == fx.demo.id
  }

  function Fixtures(): (fx: FixtureSet)
    ensures Consistent(fx)
    ensures fx.demo == DemoUser() && fx.user == MockUser()
    ensures fx.resumes == MockResumes() && fx.portfolio == MockPortfolio()
  {
    FixtureSet(DemoUser(), MockUser(), MockResumes(), MockPortfolio())
  }
}
