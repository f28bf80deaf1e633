/**
 * The records of the portfolio service and the validity rules that the `binding`
 * tags declare on its create requests. `required` on a string field means "not
 * the empty string"; `email` is the validator library's address check, which is
 * passed in as `isEmail` rather than modelled. Update requests carry no tags and
 * make every field optional: `None` is a field left out of the JSON body.
 */
module Models {
  import opened Wrappers

  /** A clock reading (`time.Time`); handlers receive the current one as `now`. */
  type Time = int

  // ---------------------------------------------------------------------------
  // Projects (models/project.go)
  // ---------------------------------------------------------------------------

  datatype Project = Project(
    id: int,
    title: string,
    description: string,
    techStack: seq<string>,
    status: string,          // free text, e.g. "completed" or "in-progress"
    featured: bool,
    liveUrl: string,
    githubUrl: string,
    imageUrl: string,
    startDate: Time,
    endDate: Option<Time>,   // nullable
    createdAt: Time,
    updatedAt: Time)

  datatype CreateProjectRequest = CreateProjectRequest(
    title: string,
    description: string,
    techStack: seq<string>,
    status: string,
    featured: bool,
    liveUrl: string,
    githubUrl: string,
    imageUrl: string,
    startDate: Time,
    endDate: Option<Time>)

  datatype UpdateProjectRequest = UpdateProjectRequest(
    title: Option<string>,
    description: Option<string>,
    techStack: Option<seq<string>>,
    status: Option<string>,
    featured: Option<bool>,
    liveUrl: Option<string>,
    githubUrl: Option<string>,
    imageUrl: Option<string>,
    startDate: Option<Time>,
    endDate: Option<Time>)

  function ProjectId(p: Project): int { p.id }

  /** Title, description and status are `binding:"required"`. */
  predicate ValidCreateProject(r: CreateProjectRequest) {
    r.title != "" && r.description != "" && r.status != ""
  }

  /** Each required field is necessary on its own: emptying any one of them invalidates the request. */
  lemma CreateProjectRequiredFields(r: CreateProjectRequest)
    ensures !ValidCreateProject(r.(title := ""))
    ensures !ValidCreateProject(r.(description := ""))
    ensures !ValidCreateProject(r.(status := ""))
  {
  }

  /** The untagged fields never decide validity, whatever values they hold. */
  lemma CreateProjectOptionalFields(r: CreateProjectRequest, techStack: seq<string>, featured: bool,
                                    liveUrl: string, githubUrl: string, imageUrl: string,
                                    startDate: Time, endDate: Option<Time>)
    ensures ValidCreateProject(r) == ValidCreateProject(r.(techStack := techStack, featured := featured,
              liveUrl := liveUrl, githubUrl := githubUrl, imageUrl := imageUrl,
              startDate := startDate, endDate := endDate))
  {
  }

  // ---------------------------------------------------------------------------
  // Users (models/user.go)
  // ---------------------------------------------------------------------------

  datatype User = User(
    id: int,
    name: string,
    email: string,
    role: string,
    avatar: string,
    bio: string,
    website: string,
    location: string,
    skills: seq<string>,
    createdAt: Time,
    updatedAt: Time)

  /** Has no id and no timestamps: those are assigned by the server. */
  datatype CreateUserRequest = CreateUserRequest(
    name: string,
    email: string,
    role: string,
    avatar: string,
    bio: string,
    website: string,
    location: string,
    skills: seq<string>)

  datatype UpdateUserRequest = UpdateUserRequest(
    name: Option<string>,
    email: Option<string>,
    role: Option<string>,
    avatar: Option<string>,
    bio: Option<string>,
    website: Option<string>,
    location: Option<string>,
    skills: Option<seq<string>>)

  function UserId(u: User): int { u.id }

  /** Name and role are required; email is required and must pass the address check. */
  predicate ValidCreateUser(r: CreateUserRequest, isEmail: string -> bool) {
    r.name != "" && r.email != "" && isEmail(r.email) && r.role != ""
  }

  /**
   * A request with a name, a role and an address the check accepts is valid
   * whatever its optional fields hold; without any of the three it is not.
   */
  lemma CreateUserRule(r: CreateUserRequest, isEmail: string -> bool, avatar: string, bio: string,
                       website: string, location: string, skills: seq<string>)
    ensures ValidCreateUser(r, isEmail) == ValidCreateUser(r.(avatar := avatar, bio := bio,
              website := website, location := location, skills := skills), isEmail)
    ensures !ValidCreateUser(r.(name := ""), isEmail) && !ValidCreateUser(r.(role := ""), isEmail)
    ensures !isEmail(r.email) ==> !ValidCreateUser(r, isEmail)
  {
  }

  // ---------------------------------------------------------------------------
  // Contact messages and skills (models/contact.go)
  // ---------------------------------------------------------------------------

  datatype ContactMessage = ContactMessage(
    id: int,
    name: string,
    email: string,
    subject: string,
    message: string,
    status: string,          // documented as one of "unread", "read", "replied"
    createdAt: Time,
    readAt: Option<Time>)    // nullable

  datatype ContactFormRequest = ContactFormRequest(
    name: string,
    email: string,
    subject: string,
    message: string)

  /** The three states a contact message is documented to take. */
  predicate KnownContactStatus(s: string) {
    s == "unread" || s == "read" || s == "replied"
  }

  /** Every field is required, and the email must pass the address check. */
  predicate ValidContactForm(r: ContactFormRequest, isEmail: string -> bool) {
    r.name != "" && r.email != "" && isEmail(r.email) && r.subject != "" && r.message != ""
  }

  /** Leaving out any field, or giving an address the check rejects, invalidates the form. */
  lemma ContactFormRule(r: ContactFormRequest, isEmail: string -> bool)
    ensures !ValidContactForm(r.(name := ""), isEmail)
    ensures !ValidContactForm(r.(email := ""), isEmail)
    ensures !ValidContactForm(r.(subject := ""), isEmail)
    ensures !ValidContactForm(r.(message := ""), isEmail)
    ensures !isEmail(r.email) ==> !ValidContactForm(r, isEmail)
  {
  }

  datatype Skill = Skill(
    id: int,
    name: string,
    category: string,
    level: string,           // beginner, intermediate, advanced or expert
    yearsExp: int,
    featured: bool,
    icon: string,
    color: string,
    description: string)

  /** Omitted numeric, boolean and text fields arrive as 0, false and "". */
  datatype AddSkillRequest = AddSkillRequest(
    name: string,
    category: string,
    level: string,
    yearsExp: int,
    featured: bool,
    icon: string,
    color: string,
    description: string)

  function SkillId(s: Skill): int { s.id }

  /** Name, category and level are required. */
  predicate ValidAddSkill(r: AddSkillRequest) {
    r.name != "" && r.category != "" && r.level != ""
  }

  /** Validity rests on the three required fields only. */
  lemma AddSkillRule(r: AddSkillRequest, yearsExp: int, featured: bool, icon: string, color: string,
                     description: string)
    ensures ValidAddSkill(r) == ValidAddSkill(r.(yearsExp := yearsExp, featured := featured, icon := icon,
              color := color, description := description))
    ensures !ValidAddSkill(r.(name := "")) && !ValidAddSkill(r.(category := "")) && !ValidAddSkill(r.(level := ""))
  {
  }

  // ---------------------------------------------------------------------------
  // Visits and statistics (models/stats.go)
  // ---------------------------------------------------------------------------

  /** Has no IP address: the server takes it from the connection. */
  datatype VisitRequest = VisitRequest(
    page: string,
    userAgent: string,
    country: string,
    referrer: string)

  datatype Visit = Visit(
    id: int,
    page: string,
    userAgent: string,
    country: string,
    referrer: string,
    ip: string,
    createdAt: Time)

  /** Only the page is required. */
  predicate ValidVisit(r: VisitRequest) {
    r.page != ""
  }

  lemma VisitRule(r: VisitRequest, userAgent: string, country: string, referrer: string)
    ensures ValidVisit(r) == ValidVisit(r.(userAgent := userAgent, country := country, referrer := referrer))
    ensures !ValidVisit(r.(page := ""))
  {
  }

  datatype ProjectStatusStat = ProjectStatusStat(status: string, count: int)

  /** Usage of one technology; the floating-point percentage is not modelled. */
  datatype TechStackStat = TechStackStat(technology: string, count: int)

  datatype ProjectStats = ProjectStats(
    totalProjects: int,
    completedProjects: int,
    featuredProjects: int,
    techStackStats: seq<TechStackStat>,
    projectsByStatus: seq<ProjectStatusStat>)

  /** Views on one day, the day given as a count of days on the clock. */
  datatype TimeStat = TimeStat(day: int, views: int)
}
