/**
 * The in-memory handlers of the portfolio service (handlers/handlers.go): the
 * process-wide `projects`, `skills`, `contacts` and `visits` slices, modelled as
 * the fields of one `Portfolio` object, and the handlers that list, look up,
 * append to, patch and splice them. The `:id` path text, the decoded JSON body
 * (`None` when it does not decode), the email check, the client address and the
 * clock are parameters.
 */
module PortfolioHandlers {
  import opened Wrappers
  import opened Numbers
  import opened Collections
  import opened Models

  /** Seconds in a day, for the seed records' dates. */
  const Day: int := 86400

  /** The body of a 201 reply to a contact submission or a visit. */
  datatype Receipt = Receipt(message: string, id: int)

  // ---------------------------------------------------------------------------
  // Projects: the listing filters
  // ---------------------------------------------------------------------------

  function StatusIs(status: string): Project -> bool {
    (p: Project) => p.status == status
  }

  function IsFeatured(p: Project): bool {
    p.featured
  }

  /**
   * The `data` of GET /projects: the `status` filter when the query value is
   * non-empty, then the `featured` filter when the query value is exactly "true".
   */
  function ProjectListing(ps: seq<Project>, status: string, featured: string): seq<Project> {
    var byStatus := if status != "" then Filter(ps, StatusIs(status)) else ps;
    if featured == "true" then Filter(byStatus, IsFeatured) else byStatus
  }

  /** What a project must satisfy to be listed for the given query values. */
  function ProjectMatches(status: string, featured: string): Project -> bool {
    (p: Project) => (status == "" || p.status == status) && (featured != "true" || p.featured)
  }

  /**
   * The two filters in sequence select exactly the projects satisfying both query
   * conditions, in their stored order; an empty `status` and any `featured` other
   * than "true" restrict nothing.
   */
  lemma ProjectListingIsConjunction(ps: seq<Project>, status: string, featured: string)
    ensures ProjectListing(ps, status, featured) == Filter(ps, ProjectMatches(status, featured))
  {
    var m := ProjectMatches(status, featured);
    if status != "" && featured == "true" {
      FilterComposes(ps, StatusIs(status), IsFeatured);
      FilterExtensional(ps, Both(StatusIs(status), IsFeatured), m);
    } else if status != "" {
      FilterExtensional(ps, StatusIs(status), m);
    } else if featured == "true" {
      FilterExtensional(ps, IsFeatured, m);
    } else {
      FilterKeepsAll(ps, m);
    }
  }

  // ---------------------------------------------------------------------------
  // Projects: create and update
  // ---------------------------------------------------------------------------

  /** The record createProject builds: request fields copied, id and both timestamps from the server. */
  function NewProject(req: CreateProjectRequest, id: int, now: Time): Project {
    Project(id, req.title, req.description, req.techStack, req.status, req.featured,
            req.liveUrl, req.githubUrl, req.imageUrl, req.startDate, req.endDate, now, now)
  }

  /**
   * The slice after createProject as written: the new record appended under id
   * `len(projects) + 1`. The handler below uses `AppendProjectFresh` instead.
   */
  function AppendProject(ps: seq<Project>, req: CreateProjectRequest, now: Time): seq<Project> {
    ps + [NewProject(req, |ps| + 1, now)]
  }

  /**
   * Creating grows the slice by one at the end and leaves every earlier record as
   * it was; the new record carries the request's fields, an id no earlier record
   * carries and the server's clock in both timestamps.
   */
  lemma AppendProjectEffect(ps: seq<Project>, req: CreateProjectRequest, now: Time)
    ensures var r := AppendProjectFresh(ps, req, now);
      && |r| == |ps| + 1
      && r[..|ps|] == ps
      && r[|ps|].id >= 1 && (forall j :: 0 <= j < |ps| ==> ps[j].id != r[|ps|].id)
      && r[|ps|].createdAt == now && r[|ps|].updatedAt == now
      && r[|ps|].(id := 0, createdAt := 0, updatedAt := 0) ==
         NewProject(req, 0, 0)
  {
  }

  /**
   * Create followed by get-by-id returns the new record exactly when no stored
   * record already carries the id `len + 1`.
   */
  lemma {:induction false} CreateThenGet(ps: seq<Project>, req: CreateProjectRequest, now: Time)
    ensures IndexOf(AppendProject(ps, req, now), ProjectId, |ps| + 1) == Some(|ps|) <==>
            forall j :: 0 <= j < |ps| ==> ps[j].id != |ps| + 1
  {
    var r := AppendProject(ps, req, now);
    assert forall j :: 0 <= j < |ps| ==> r[j] == ps[j];
    assert ProjectId(r[|ps|]) == |ps| + 1;
  }

  /**
   * The id rule as written: delete id 1 from the seeded [1, 2], then create. The
   * new record gets id 2 again, ids stop being unique, and a lookup of 2 finds the
   * older record, so the new one can never be fetched; deleting id 2 twice now
   * succeeds both times.
   */
  lemma LengthIdReusedAfterDelete(a: Project, b: Project, req: CreateProjectRequest, now: Time)
    requires a.id == 1 && b.id == 2
    ensures var afterDelete := RemoveAt([a, b], 0);
      var afterCreate := AppendProject(afterDelete, req, now);
      && afterCreate[1].id == 2
      && !UniqueIds(afterCreate, ProjectId)
      && IndexOf(afterCreate, ProjectId, 2) == Some(0)
      && Lookup(afterCreate, ProjectId, "2", "Invalid project ID", "Project not found") == Success(StatusOK, b)
      && IndexOf(RemoveAt(afterCreate, 0), ProjectId, 2) == Some(0)
  {
    var afterDelete := RemoveAt([a, b], 0);
    assert afterDelete == [b];
    var afterCreate := AppendProject(afterDelete, req, now);
    assert afterCreate[0] == b;
    assert Atoi("2") == Some(2) by {
      assert Itoa(2) == "2";
      AtoiItoa(2);
    }
    assert RemoveAt(afterCreate, 0) == [afterCreate[1]];
  }

  /** createProject with the id rule corrected: one more than the largest id in use. */
  function AppendProjectFresh(ps: seq<Project>, req: CreateProjectRequest, now: Time): seq<Project> {
    ps + [NewProject(req, FreshId(ps, ProjectId), now)]
  }

  /**
   * With the corrected rule ids stay unique, get-by-id of the new id returns the
   * new record, and on a history without deletes (ids 1..n) it assigns the same id
   * as the code does.
   */
  lemma FreshCreateThenGet(ps: seq<Project>, req: CreateProjectRequest, now: Time)
    ensures var r := AppendProjectFresh(ps, req, now);
      && (UniqueIds(ps, ProjectId) ==> UniqueIds(r, ProjectId))
      && IndexOf(r, ProjectId, FreshId(ps, ProjectId)) == Some(|ps|)
      && (FreshId(ps, ProjectId) <= MaxInt ==>
            Lookup(r, ProjectId, Itoa(FreshId(ps, ProjectId)), "Invalid project ID", "Project not found")
            == Success(StatusOK, r[|ps|]))
    ensures (forall j :: 0 <= j < |ps| ==> ps[j].id == j + 1) ==>
      AppendProjectFresh(ps, req, now) == AppendProject(ps, req, now)
  {
    var next := FreshId(ps, ProjectId);
    AppendFresh(ps, ProjectId, NewProject(req, next, now));
    if next <= MaxInt {
      AtoiItoa(next);
    }
    if forall j :: 0 <= j < |ps| ==> ps[j].id == j + 1 {
      DenseIdsFreshIsLengthPlusOne(ps, ProjectId);
    }
  }

  /** The empty PUT body: no field present. */
  const NoProjectChange := UpdateProjectRequest(None, None, None, None, None, None, None, None, None, None)

  /** updateProject's field-by-field overwrite of one stored record. */
  function ApplyProjectUpdate(p: Project, req: UpdateProjectRequest, now: Time): Project {
    p.(title := req.title.GetOr(p.title),
       description := req.description.GetOr(p.description),
       techStack := req.techStack.GetOr(p.techStack),
       status := req.status.GetOr(p.status),
       featured := req.featured.GetOr(p.featured),
       liveUrl := req.liveUrl.GetOr(p.liveUrl),
       githubUrl := req.githubUrl.GetOr(p.githubUrl),
       imageUrl := req.imageUrl.GetOr(p.imageUrl),
       startDate := req.startDate.GetOr(p.startDate),
       endDate := if req.endDate.Some? then req.endDate else p.endDate,
       updatedAt := now)
  }

  /**
   * A field takes the request's value when the request carries it and changes
   * only then; id and creation time never change; the modification time is
   * always the clock's.
   */
  lemma ProjectUpdateFields(p: Project, req: UpdateProjectRequest, now: Time)
    ensures var r := ApplyProjectUpdate(p, req, now);
      && (req.title.Some? ==> r.title == req.title.value) && (r.title != p.title ==> req.title.Some?)
      && (req.description.Some? ==> r.description == req.description.value)
      && (r.description != p.description ==> req.description.Some?)
      && (req.techStack.Some? ==> r.techStack == req.techStack.value) && (r.techStack != p.techStack ==> req.techStack.Some?)
      && (req.status.Some? ==> r.status == req.status.value) && (r.status != p.status ==> req.status.Some?)
      && (req.featured.Some? ==> r.featured == req.featured.value) && (r.featured != p.featured ==> req.featured.Some?)
      && (req.liveUrl.Some? ==> r.liveUrl == req.liveUrl.value) && (r.liveUrl != p.liveUrl ==> req.liveUrl.Some?)
      && (req.githubUrl.Some? ==> r.githubUrl == req.githubUrl.value) && (r.githubUrl != p.githubUrl ==> req.githubUrl.Some?)
      && (req.imageUrl.Some? ==> r.imageUrl == req.imageUrl.value) && (r.imageUrl != p.imageUrl ==> req.imageUrl.Some?)
      && (req.startDate.Some? ==> r.startDate == req.startDate.value) && (r.startDate != p.startDate ==> req.startDate.Some?)
      && (req.endDate.Some? ==> r.endDate == req.endDate) && (r.endDate != p.endDate ==> req.endDate.Some?)
      && r.id == p.id && r.createdAt == p.createdAt && r.updatedAt == now
  {
  }

  /**
   * An end date can be set but never cleared: a JSON null and an omitted field both
   * decode to an absent pointer, which keeps the stored date.
   */
  lemma EndDateNeverCleared(p: Project, req: UpdateProjectRequest, now: Time)
    requires p.endDate.Some?
    ensures ApplyProjectUpdate(p, req, now).endDate.Some?
  {
  }

  /** Repeating an update at the same instant changes nothing more. */
  lemma ProjectUpdateIdempotent(p: Project, req: UpdateProjectRequest, now: Time)
    ensures ApplyProjectUpdate(ApplyProjectUpdate(p, req, now), req, now) == ApplyProjectUpdate(p, req, now)
  {
  }

  /** An empty body still refreshes the modification time, and only that. */
  lemma EmptyProjectUpdate(p: Project, now: Time)
    ensures ApplyProjectUpdate(p, NoProjectChange, now) == p.(updatedAt := now)
  {
  }

  // ---------------------------------------------------------------------------
  // Skills, contact messages, visits
  // ---------------------------------------------------------------------------

  function CategoryIs(category: string): Skill -> bool {
    (s: Skill) => s.category == category
  }

  function IsFeaturedSkill(s: Skill): bool {
    s.featured
  }

  /** The `data` of GET /skills: the `category` filter, then the `featured` filter. */
  function SkillListing(ss: seq<Skill>, category: string, featured: string): seq<Skill> {
    var byCategory := if category != "" then Filter(ss, CategoryIs(category)) else ss;
    if featured == "true" then Filter(byCategory, IsFeaturedSkill) else byCategory
  }

  function SkillMatches(category: string, featured: string): Skill -> bool {
    (s: Skill) => (category == "" || s.category == category) && (featured != "true" || s.featured)
  }

  /** As for projects: the listing is the conjunction of the two query conditions, in stored order. */
  lemma SkillListingIsConjunction(ss: seq<Skill>, category: string, featured: string)
    ensures SkillListing(ss, category, featured) == Filter(ss, SkillMatches(category, featured))
  {
    var m := SkillMatches(category, featured);
    if category != "" && featured == "true" {
      FilterComposes(ss, CategoryIs(category), IsFeaturedSkill);
      FilterExtensional(ss, Both(CategoryIs(category), IsFeaturedSkill), m);
    } else if category != "" {
      FilterExtensional(ss, CategoryIs(category), m);
    } else if featured == "true" {
      FilterExtensional(ss, IsFeaturedSkill, m);
    } else {
      FilterKeepsAll(ss, m);
    }
  }

  function NewSkill(req: AddSkillRequest, id: int): Skill {
    Skill(id, req.name, req.category, req.level, req.yearsExp, req.featured, req.icon, req.color, req.description)
  }

  /** The slice after addSkill as written: the new skill appended under id `len(skills) + 1`. */
  function AppendSkillByLength(ss: seq<Skill>, req: AddSkillRequest): seq<Skill> {
    ss + [NewSkill(req, |ss| + 1)]
  }

  /**
   * The id rule as written, for skills: remove id 1 from [1, 2], then add. The new
   * skill gets id 2 again, and a DELETE of id 2 removes the older skill and leaves
   * the new one in place.
   */
  lemma SkillIdReusedAfterDelete(a: Skill, b: Skill, req: AddSkillRequest)
    requires a.id == 1 && b.id == 2
    ensures var afterAdd := AppendSkillByLength(RemoveAt([a, b], 0), req);
      && afterAdd[1].id == 2
      && !UniqueIds(afterAdd, SkillId)
      && IndexOf(afterAdd, SkillId, 2) == Some(0)
      && RemoveAt(afterAdd, 0) == [NewSkill(req, 2)]
  {
    LengthIdClashAfterDelete(a, b, NewSkill(req, 2), SkillId);
  }

  /** The slice after addSkill, with the id rule corrected as for projects. */
  function AppendSkill(ss: seq<Skill>, req: AddSkillRequest): seq<Skill> {
    ss + [NewSkill(req, FreshId(ss, SkillId))]
  }

  /**
   * With the corrected rule ids stay unique, the new id finds the new skill, and on
   * a history without deletes the id is the one the code assigns.
   */
  lemma FreshAddSkill(ss: seq<Skill>, req: AddSkillRequest)
    ensures var r := AppendSkill(ss, req);
      && (UniqueIds(ss, SkillId) ==> UniqueIds(r, SkillId))
      && IndexOf(r, SkillId, FreshId(ss, SkillId)) == Some(|ss|)
    ensures (forall j :: 0 <= j < |ss| ==> ss[j].id == j + 1) ==>
      AppendSkill(ss, req) == AppendSkillByLength(ss, req)
  {
    AppendFresh(ss, SkillId, NewSkill(req, FreshId(ss, SkillId)));
    if forall j :: 0 <= j < |ss| ==> ss[j].id == j + 1 {
      DenseIdsFreshIsLengthPlusOne(ss, SkillId);
    }
  }

  /** A stored message starts unread, never read, with the server's id and time. */
  function NewContact(req: ContactFormRequest, id: int, now: Time): (m: ContactMessage)
    ensures m.status == "unread" && KnownContactStatus(m.status) && m.readAt.None?
  {
    ContactMessage(id, req.name, req.email, req.subject, req.message, "unread", now, None)
  }

  function AppendContact(cs: seq<ContactMessage>, req: ContactFormRequest, now: Time): seq<ContactMessage> {
    cs + [NewContact(req, |cs| + 1, now)]
  }

  /** A visit records the address of the connection, never anything from the body. */
  function NewVisit(req: VisitRequest, id: int, clientIp: string, now: Time): (v: Visit)
    ensures v.ip == clientIp
  {
    Visit(id, req.page, req.userAgent, req.country, req.referrer, clientIp, now)
  }

  function AppendVisit(vs: seq<Visit>, req: VisitRequest, clientIp: string, now: Time): seq<Visit> {
    vs + [NewVisit(req, |vs| + 1, clientIp, now)]
  }

  // ---------------------------------------------------------------------------
  // Project statistics
  // ---------------------------------------------------------------------------

  /** The status of each project, in order. */
  function StatusesOf(ps: seq<Project>): (r: seq<string>)
    ensures |r| == |ps|
  {
    if ps == [] then [] else StatusesOf(ps[..|ps| - 1]) + [ps[|ps| - 1].status]
  }

  /** Every entry of every tech stack, project by project. */
  function TechsOf(ps: seq<Project>): seq<string> {
    if ps == [] then [] else TechsOf(ps[..|ps| - 1]) + ps[|ps| - 1].techStack
  }

  function StatusPairs(stats: seq<ProjectStatusStat>): seq<(string, int)> {
    seq(|stats|, i requires 0 <= i < |stats| => (stats[i].status, stats[i].count))
  }

  function TechPairs(stats: seq<TechStackStat>): seq<(string, int)> {
    seq(|stats|, i requires 0 <= i < |stats| => (stats[i].technology, stats[i].count))
  }

  /**
   * The number of projects with a given status is that status's multiplicity
   * among all statuses: the completed count agrees with the "completed" entry of
   * the per-status breakdown.
   */
  lemma {:induction false} StatusCountIsMultiplicity(ps: seq<Project>, status: string)
    ensures |Filter(ps, StatusIs(status))| == multiset(StatusesOf(ps))[status]
  {
    if ps != [] {
      StatusCountIsMultiplicity(ps[..|ps| - 1], status);
    }
  }

  /** Scanning one more project adds exactly that project's share to each count. */
  lemma ScanStep(ps: seq<Project>, i: nat)
    requires i < |ps|
    ensures |Filter(ps[..i + 1], StatusIs("completed"))| ==
            |Filter(ps[..i], StatusIs("completed"))| + (if ps[i].status == "completed" then 1 else 0)
    ensures |Filter(ps[..i + 1], IsFeatured)| == |Filter(ps[..i], IsFeatured)| + (if ps[i].featured then 1 else 0)
    ensures StatusesOf(ps[..i + 1]) == StatusesOf(ps[..i]) + [ps[i].status]
    ensures TechsOf(ps[..i + 1]) == TechsOf(ps[..i]) + ps[i].techStack
  {
    assert ps[..i + 1][..i] == ps[..i];
  }

  /**
   * The counting loop of GET /stats/projects: one pass over the projects that
   * counts the completed and the featured ones and tallies statuses and
   * technologies in two maps.
   */
  method CountProjects(ps: seq<Project>) returns (completed: int, featured: int, statusCount: map<string, nat>, techCount: map<string, nat>)
    ensures completed == |Filter(ps, StatusIs("completed"))|
    ensures featured == |Filter(ps, IsFeatured)|
    ensures Counts(statusCount, StatusesOf(ps))
    ensures Counts(techCount, TechsOf(ps))
  {
    completed, featured := 0, 0;
    techCount, statusCount := map[], map[];
    for i := 0 to |ps|
      invariant ScanState(ps[..i], completed, featured, statusCount, techCount)
    {
      var p := ps[i];
      var nextTech := IncrementAll(techCount, TechsOf(ps[..i]), p.techStack);
      ScanStateStep(ps, i, completed, featured, statusCount, techCount, nextTech);
      if p.status == "completed" {
        completed := completed + 1;
      }
      if p.featured {
        featured := featured + 1;
      }
      statusCount := Increment(statusCount, p.status);
      techCount := nextTech;
    }
    assert ps[..|ps|] == ps;
  }

  /** What the counting loop knows after scanning `seen`: both counts and both tallies. */
  ghost predicate ScanState(seen: seq<Project>, completed: int, featured: int,
                            statusCount: map<string, nat>, techCount: map<string, nat>) {
    && completed == |Filter(seen, StatusIs("completed"))|
    && featured == |Filter(seen, IsFeatured)|
    && Counts(statusCount, StatusesOf(seen))
    && Counts(techCount, TechsOf(seen))
  }

  /** One iteration of the counting loop keeps `ScanState`, with the tech tally extended by the caller. */
  lemma ScanStateStep(ps: seq<Project>, i: nat, completed: int, featured: int,
                      statusCount: map<string, nat>, techCount: map<string, nat>, nextTech: map<string, nat>)
    requires i < |ps| && ScanState(ps[..i], completed, featured, statusCount, techCount)
    requires Counts(nextTech, TechsOf(ps[..i]) + ps[i].techStack)
    ensures ScanState(ps[..i + 1],
                      completed + (if ps[i].status == "completed" then 1 else 0),
                      featured + (if ps[i].featured then 1 else 0),
                      Increment(statusCount, ps[i].status), nextTech)
  {
    ScanStep(ps, i);
    IncrementCounts(statusCount, StatusesOf(ps[..i]), ps[i].status);
  }


  /** Seven days ending today, oldest first, each with 40 plus a draw of `rand.Intn(60)` views. */
  method GenerateTimeStats(today: int, draws: seq<int>) returns (stats: seq<TimeStat>)
    requires |draws| == 7 && forall k :: 0 <= k < 7 ==> 0 <= draws[k] < 60
    ensures |stats| == 7
    ensures forall k :: 0 <= k < 7 ==> stats[k].day == today - 6 + k
    ensures forall k :: 0 <= k < 7 ==> 40 <= stats[k].views < 100 && stats[k].views == 40 + draws[k]
  {
    stats := [];
    var i := 6;
    while i >= 0
      invariant -1 <= i <= 6
      invariant |stats| == 6 - i
      invariant forall k :: 0 <= k < |stats| ==> stats[k] == TimeStat(today - 6 + k, 40 + draws[k])
    {
      stats := stats + [TimeStat(today - i, 40 + draws[6 - i])];
      i := i - 1;
    }
  }

  /** The per-technology entries: one per key of the tally map, in the map's iteration order. */
  method TechStatsOf(techCount: map<string, nat>, ghost techs: seq<string>) returns (stats: seq<TechStackStat>)
    requires Counts(techCount, techs)
    ensures IsTally(TechPairs(stats), techs)
  {
    var keys := EnumerateKeys(techCount);
    stats := [];
    for k := 0 to |keys|
      invariant |stats| == k
      invariant forall t :: 0 <= t < k ==> stats[t] == TechStackStat(keys[t], techCount[keys[t]])
    {
      stats := stats + [TechStackStat(keys[k], techCount[keys[k]])];
    }
    assert KeysOf(TechPairs(stats)) == keys;
  }

  /** The per-status entries: one per key of the tally map, in the map's iteration order. */
  method StatusStatsOf(statusCount: map<string, nat>, ghost statuses: seq<string>)
    returns (stats: seq<ProjectStatusStat>)
    requires Counts(statusCount, statuses)
    ensures IsTally(StatusPairs(stats), statuses)
  {
    var keys := EnumerateKeys(statusCount);
    stats := [];
    for k := 0 to |keys|
      invariant |stats| == k
      invariant forall t :: 0 <= t < k ==> stats[t] == ProjectStatusStat(keys[t], statusCount[keys[t]])
    {
      stats := stats + [ProjectStatusStat(keys[k], statusCount[keys[k]])];
    }
    assert KeysOf(StatusPairs(stats)) == keys;
  }

  // ---------------------------------------------------------------------------
  // Seed data
  // ---------------------------------------------------------------------------

  /** The two seeded projects' descriptions. */
  const PortfolioSiteSummary: string :=
    "A responsive portfolio website built with Flutter Web, featuring i18n support and GitHub Pages deployment"
  const RestApiSummary: string :=
    "RESTful API server built with Go and Gin framework, featuring Swagger documentation and Docker deployment"

  /** The first seeded project: finished, featured, with an end date. */
  function SeedPortfolioSite(now: Time): (p: Project)
    ensures p.id == 1
  {
    Project(1, "Portfolio Website",
            PortfolioSiteSummary,
            ["Flutter", "Dart", "GitHub Actions", "GitHub Pages"], "completed", true,
            "https://hyoukjoolee.github.io/portfolio", "https://github.com/hyoukjoolee/portfolio",
            "https://via.placeholder.com/600x400",
            now - 60 * Day, Some(now - 30 * Day), now - 30 * Day, now)
  }

  /** The second seeded project: in progress, featured, no end date. */
  function SeedRestApi(now: Time): (p: Project)
    ensures p.id == 2
  {
    Project(2, "Go REST API",
            RestApiSummary,
            ["Go", "Gin", "Docker", "AWS", "Swagger"], "in-progress", true,
            "", "https://github.com/hyoukjoolee/portfolio-api", "https://via.placeholder.com/600x400",
            now - 7 * Day, None, now - 7 * Day, now)
  }

  function SeedProjects(now: Time): seq<Project> {
    [SeedPortfolioSite(now), SeedRestApi(now)]
  }


  const SeedSkills: seq<Skill> := [
    Skill(1, "Go", "backend", "expert", 3, true, "", "#00ADD8", ""),
    Skill(2, "JavaScript", "frontend", "expert", 5, true, "", "#F7DF1E", ""),
    Skill(3, "TypeScript", "frontend", "advanced", 3, true, "", "#3178C6", ""),
    Skill(4, "Flutter", "mobile", "advanced", 2, true, "", "#02569B", ""),
    Skill(5, "Docker", "devops", "advanced", 3, false, "", "#2496ED", ""),
    Skill(6, "AWS", "cloud", "intermediate", 2, false, "", "#FF9900", "")
  ]

  // ---------------------------------------------------------------------------
  // The handlers over the package-level slices
  // ---------------------------------------------------------------------------

  /**
   * The seeded projects are numbered 1, 2 in order, so until the first delete
   * the corrected id rule assigns what `len(projects) + 1` assigns.
   */
  lemma SeedProjectIdsDense(now: Time)
    ensures forall j :: 0 <= j < |SeedProjects(now)| ==> SeedProjects(now)[j].id == j + 1
    ensures FreshId(SeedProjects(now), ProjectId) == |SeedProjects(now)| + 1
  {
    DenseIdsFreshIsLengthPlusOne(SeedProjects(now), ProjectId);
  }

  /** The same for the seeded skills, numbered 1 to 6. */
  lemma SeedSkillIdsDense()
    ensures forall j :: 0 <= j < |SeedSkills| ==> SeedSkills[j].id == j + 1
    ensures FreshId(SeedSkills, SkillId) == |SeedSkills| + 1
  {
    DenseIdsFreshIsLengthPlusOne(SeedSkills, SkillId);
  }

  class Portfolio {
    var projects: seq<Project>
    var skills: seq<Skill>
    var contacts: seq<ContactMessage>
    var visits: seq<Visit>

    /** No two projects and no two skills share an id, so every record can be reached by its id. */
    predicate Valid()
      reads this`projects, this`skills
    {
      UniqueIds(projects, ProjectId) && UniqueIds(skills, SkillId)
    }

    /** The state at start-up: the seeded projects and skills, no messages, no visits. */
    constructor (now: Time)
      ensures projects == SeedProjects(now) && skills == SeedSkills
      ensures contacts == [] && visits == []
      ensures Valid()
    {
      SeedProjectIdsDense(now);
      SeedSkillIdsDense();
      DenseIdsUnique(SeedProjects(now), ProjectId);
      DenseIdsUnique(SeedSkills, SkillId);
      projects := SeedProjects(now);
      skills := SeedSkills;
      contacts := [];
      visits := [];
    }

    /** GET /projects: the filtered listing and its length. */
    method GetProjects(status: string, featured: string) returns (data: seq<Project>, count: int)
      ensures data == ProjectListing(projects, status, featured)
      ensures count == |data|
    {
      data := projects;
      if status != "" {
        data := Select(projects, StatusIs(status));
      }
      if featured == "true" {
        data := Select(data, IsFeatured);
      }
      count := |data|;
    }

    /** GET /projects/:id. */
    method GetProject(idText: string) returns (r: Reply<Project>)
      ensures r == Lookup(projects, ProjectId, idText, "Invalid project ID", "Project not found")
    {
      var parsed := Atoi(idText);
      if parsed.None? {
        return Failure(StatusBadRequest, Message("Invalid project ID"));
      }
      var found := Find(projects, ProjectId, parsed.value);
      if found.None? {
        return Failure(StatusNotFound, Message("Project not found"));
      }
      return Success(StatusOK, projects[found.value]);
    }

    /** POST /projects, under the corrected id rule; the new record is reachable by its id. */
    method CreateProject(body: Option<CreateProjectRequest>, now: Time) returns (r: Reply<Project>)
      requires Valid()
      modifies this`projects
      ensures Valid()
      ensures body.None? || !ValidCreateProject(body.value) ==>
                r == Failure(StatusBadRequest, BindError) && projects == old(projects)
      ensures body.Some? && ValidCreateProject(body.value) ==>
                projects == AppendProjectFresh(old(projects), body.value, now) &&
                r == Success(StatusCreated, projects[|projects| - 1]) &&
                IndexOf(projects, ProjectId, r.value.id) == Some(|projects| - 1)
    {
      if body.None? || !ValidCreateProject(body.value) {
        return Failure(StatusBadRequest, BindError);
      }
      var created := NewProject(body.value, FreshId(projects, ProjectId), now);
      AppendFresh(projects, ProjectId, created);
      projects := projects + [created];
      return Success(StatusCreated, created);
    }

    /** PUT /projects/:id: the id is checked before the body, the body before the search. */
    method UpdateProject(idText: string, body: Option<UpdateProjectRequest>, now: Time) returns (r: Reply<Project>)
      requires Valid()
      modifies this`projects
      ensures Valid()
      ensures Atoi(idText).None? ==>
                r == Failure(StatusBadRequest, Message("Invalid project ID")) && projects == old(projects)
      ensures Atoi(idText).Some? && body.None? ==>
                r == Failure(StatusBadRequest, BindError) && projects == old(projects)
      ensures Atoi(idText).Some? && body.Some? ==>
                match IndexOf(old(projects), ProjectId, Atoi(idText).value)
                case None =>
                  r == Failure(StatusNotFound, Message("Project not found")) && projects == old(projects)
                case Some(i) =>
                  projects == old(projects)[i := ApplyProjectUpdate(old(projects)[i], body.value, now)] &&
                  r == Success(StatusOK, projects[i])
    {
      var parsed := Atoi(idText);
      if parsed.None? {
        return Failure(StatusBadRequest, Message("Invalid project ID"));
      }
      if body.None? {
        return Failure(StatusBadRequest, BindError);
      }
      var found := Find(projects, ProjectId, parsed.value);
      if found.None? {
        return Failure(StatusNotFound, Message("Project not found"));
      }
      var i := found.value;
      ReplaceKeepsUniqueIds(projects, ProjectId, i, ApplyProjectUpdate(projects[i], body.value, now));
      projects := projects[i := ApplyProjectUpdate(projects[i], body.value, now)];
      return Success(StatusOK, projects[i]);
    }

    /**
     * DELETE /projects/:id: splices out the first record with the id; afterwards no
     * record carries the id, so repeating the request answers 404.
     */
    method DeleteProject(idText: string) returns (r: Reply<()>)
      requires Valid()
      modifies this`projects
      ensures Valid()
      ensures Atoi(idText).Some? ==> IndexOf(projects, ProjectId, Atoi(idText).value).None?
      ensures Atoi(idText).None? ==>
                r == Failure(StatusBadRequest, Message("Invalid project ID")) && projects == old(projects)
      ensures Atoi(idText).Some? ==>
                match IndexOf(old(projects), ProjectId, Atoi(idText).value)
                case None =>
                  r == Failure(StatusNotFound, Message("Project not found")) && projects == old(projects)
                case Some(i) =>
                  projects == RemoveAt(old(projects), i) && r == Success(StatusNoContent, ())
    {
      var parsed := Atoi(idText);
      if parsed.None? {
        return Failure(StatusBadRequest, Message("Invalid project ID"));
      }
      var found := Find(projects, ProjectId, parsed.value);
      if found.None? {
        return Failure(StatusNotFound, Message("Project not found"));
      }
      DeleteRemovesId(projects, ProjectId, parsed.value, found.value);
      RemoveKeepsUniqueIds(projects, ProjectId, found.value);
      projects := RemoveAt(projects, found.value);
      return Success(StatusNoContent, ());
    }

    /** GET /skills: the filtered listing and its length. */
    method GetSkills(category: string, featured: string) returns (data: seq<Skill>, count: int)
      ensures data == SkillListing(skills, category, featured)
      ensures count == |data|
    {
      data := skills;
      if category != "" {
        data := Select(skills, CategoryIs(category));
      }
      if featured == "true" {
        data := Select(data, IsFeaturedSkill);
      }
      count := |data|;
    }

    /** POST /skills, under the corrected id rule. */
    method AddSkill(body: Option<AddSkillRequest>) returns (r: Reply<Skill>)
      requires Valid()
      modifies this`skills
      ensures Valid()
      ensures body.None? || !ValidAddSkill(body.value) ==>
                r == Failure(StatusBadRequest, BindError) && skills == old(skills)
      ensures body.Some? && ValidAddSkill(body.value) ==>
                skills == AppendSkill(old(skills), body.value) &&
                r == Success(StatusCreated, skills[|skills| - 1]) &&
                IndexOf(skills, SkillId, r.value.id) == Some(|skills| - 1)
    {
      if body.None? || !ValidAddSkill(body.value) {
        return Failure(StatusBadRequest, BindError);
      }
      var created := NewSkill(body.value, FreshId(skills, SkillId));
      AppendFresh(skills, SkillId, created);
      skills := skills + [created];
      return Success(StatusCreated, created);
    }

    /** DELETE /skills/:id: afterwards no skill carries the id. */
    method RemoveSkill(idText: string) returns (r: Reply<()>)
      requires Valid()
      modifies this`skills
      ensures Valid()
      ensures Atoi(idText).Some? ==> IndexOf(skills, SkillId, Atoi(idText).value).None?
      ensures Atoi(idText).None? ==>
                r == Failure(StatusBadRequest, Message("Invalid skill ID")) && skills == old(skills)
      ensures Atoi(idText).Some? ==>
                match IndexOf(old(skills), SkillId, Atoi(idText).value)
                case None =>
                  r == Failure(StatusNotFound, Message("Skill not found")) && skills == old(skills)
                case Some(i) =>
                  skills == RemoveAt(old(skills), i) && r == Success(StatusNoContent, ())
    {
      var parsed := Atoi(idText);
      if parsed.None? {
        return Failure(StatusBadRequest, Message("Invalid skill ID"));
      }
      var found := Find(skills, SkillId, parsed.value);
      if found.None? {
        return Failure(StatusNotFound, Message("Skill not found"));
      }
      DeleteRemovesId(skills, SkillId, parsed.value, found.value);
      RemoveKeepsUniqueIds(skills, SkillId, found.value);
      skills := RemoveAt(skills, found.value);
      return Success(StatusNoContent, ());
    }

    /** POST /contact: stores the message and answers with its id. */
    method SubmitContactForm(body: Option<ContactFormRequest>, isEmail: string -> bool, now: Time)
      returns (r: Reply<Receipt>)
      modifies this`contacts
      ensures body.None? || !ValidContactForm(body.value, isEmail) ==>
                r == Failure(StatusBadRequest, BindError) && contacts == old(contacts)
      ensures body.Some? && ValidContactForm(body.value, isEmail) ==>
                contacts == AppendContact(old(contacts), body.value, now) &&
                r == Success(StatusCreated, Receipt("Contact form submitted successfully", |contacts|))
    {
      if body.None? || !ValidContactForm(body.value, isEmail) {
        return Failure(StatusBadRequest, BindError);
      }
      var created := NewContact(body.value, |contacts| + 1, now);
      contacts := contacts + [created];
      return Success(StatusCreated, Receipt("Contact form submitted successfully", created.id));
    }

    /** POST /stats/visit: stores the visit with the connection's address and answers with its id. */
    method RecordVisit(body: Option<VisitRequest>, clientIp: string, now: Time) returns (r: Reply<Receipt>)
      modifies this`visits
      ensures body.None? || !ValidVisit(body.value) ==>
                r == Failure(StatusBadRequest, BindError) && visits == old(visits)
      ensures body.Some? && ValidVisit(body.value) ==>
                visits == AppendVisit(old(visits), body.value, clientIp, now) &&
                r == Success(StatusCreated, Receipt("Visit recorded successfully", |visits|))
    {
      if body.None? || !ValidVisit(body.value) {
        return Failure(StatusBadRequest, BindError);
      }
      var created := NewVisit(body.value, |visits| + 1, clientIp, now);
      visits := visits + [created];
      return Success(StatusCreated, Receipt("Visit recorded successfully", created.id));
    }

    /**
     * GET /stats/projects: the totals, and one entry per distinct status and per
     * distinct technology (in the map's unspecified order) with its count; the
     * per-status counts add up to the number of projects and the per-technology
     * counts to the total length of all tech stacks.
     */
    method GetProjectStats() returns (stats: ProjectStats)
      ensures stats.totalProjects == |projects|
      ensures stats.completedProjects == |Filter(projects, StatusIs("completed"))|
      ensures stats.featuredProjects == |Filter(projects, IsFeatured)|
      ensures IsTally(StatusPairs(stats.projectsByStatus), StatusesOf(projects))
      ensures IsTally(TechPairs(stats.techStackStats), TechsOf(projects))
      ensures SumCounts(StatusPairs(stats.projectsByStatus)) == stats.totalProjects
      ensures SumCounts(TechPairs(stats.techStackStats)) == |TechsOf(projects)|
    {
      var completed, featured, statusCount, techCount := CountProjects(projects);
      var techStats := TechStatsOf(techCount, TechsOf(projects));
      var statusStats := StatusStatsOf(statusCount, StatusesOf(projects));
      stats := ProjectStats(|projects|, completed, featured, techStats, statusStats);
      TallySumsToLength(TechPairs(techStats), TechsOf(projects));
      TallySumsToLength(StatusPairs(statusStats), StatusesOf(projects));
    }
  }
}
