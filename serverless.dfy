/**
 * What the two serverless entry points (api/index.go and api/index.js) have in
 * common: the four fixed endpoints and the literal data they answer with, the
 * CORS headers written before any routing decision, and the shapes of the JSON
 * bodies. The list entries are reduced to their id and their display name; the
 * remaining literal fields do not take part in any decision.
 */
module ServerlessRoutes {
  import opened Wrappers
  import opened Models

  datatype Header = Header(name: string, value: string)

  /** The three CORS headers, set first on every response, OPTIONS included. */
  const Cors: seq<Header> := [
    Header("Access-Control-Allow-Origin", "*"),
    Header("Access-Control-Allow-Methods", "GET, POST, PUT, DELETE, OPTIONS"),
    Header("Access-Control-Allow-Headers", "Content-Type, Authorization")]

  const JsonContent: Header := Header("Content-Type", "application/json")

  /** One entry of a literal list: its id and its name or title. */
  datatype Item = Item(id: string, name: string)

  /** The JSON bodies the entry points write; `NoBody` is the empty preflight answer. */
  datatype Body =
    | NoBody
    | Health(status: string, timestamp: Time, version: string, platform: string)
    | List(data: seq<Item>, count: int)
    | NotFound(error: string, path: string)

  datatype Response = Response(status: int, headers: seq<Header>, body: Body)

  /** The four endpoints either entry point serves. */
  datatype Endpoint = HealthCheck | Users | Projects | Skills

  function PathOf(e: Endpoint): string {
    match e
    case HealthCheck => "/health"
    case Users => "/api/v1/users"
    case Projects => "/api/v1/projects"
    case Skills => "/api/v1/skills"
  }

  /** Exact match of the whole text against the four paths, in the order the sources test them. */
  function Route(path: string): (e: Option<Endpoint>)
    ensures e.Some? ==> PathOf(e.value) == path
    ensures e.None? ==> forall x: Endpoint :: PathOf(x) != path
  {
    if path == "/health" then Some(HealthCheck)
    else if path == "/api/v1/users" then Some(Users)
    else if path == "/api/v1/projects" then Some(Projects)
    else if path == "/api/v1/skills" then Some(Skills)
    else None
  }

  /** No endpoint path contains a `?`, so a text carrying a query string routes nowhere. */
  lemma QueryTextRoutesNowhere(url: string, i: nat)
    requires i < |url| && url[i] == '?'
    ensures Route(url).None?
  {
  }

  const SampleUsers: seq<Item> := [Item("1", "\U{C774}\U{D601}\U{C8FC}")]

  const SampleProjects: seq<Item> := [Item("1", "Portfolio API Server"), Item("2", "Flutter Portfolio")]

  const SampleSkills: seq<Item> :=
    [Item("1", "Go"), Item("2", "TypeScript"), Item("3", "Flutter"), Item("4", "Supabase")]

  /** A list body whose `count` is the length of its `data`. */
  predicate WellCounted(b: Body) {
    b.List? ==> b.count == |b.data|
  }

  /**
   * The body an endpoint answers with. Health reports the clock reading, the
   * fixed version and the platform name of the entry point; the three lists
   * carry their literal data and its length.
   */
  function Serve(e: Endpoint, platform: string, now: Time): (b: Body)
    ensures b.Health? <==> e == HealthCheck
    ensures b.Health? ==> b.status == "healthy" && b.version == "1.0.0" && b.platform == platform && b.timestamp == now
    ensures WellCounted(b)
    ensures e == Users ==> b.List? && |b.data| == 1
    ensures e == Projects ==> b.List? && |b.data| == 2
    ensures e == Skills ==> b.List? && |b.data| == 4
  {
    match e
    case HealthCheck => Health("healthy", now, "1.0.0", platform)
    case Users => List(SampleUsers, |SampleUsers|)
    case Projects => List(SampleProjects, |SampleProjects|)
    case Skills => List(SampleSkills, |SampleSkills|)
  }
}
