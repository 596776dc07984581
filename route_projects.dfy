/** app/api/projects/route.ts without the HTTP plumbing: GET filters by
    status and client; POST fills defaults and appends the project when
    Redis answers. */
module ProjectsRoute {
  import opened Types
  import opened Lists
  import opened Text
  import opened RouteStore
  import MockData

  const ProjectsKey := "meanval:projects"

  function StatusText(p: Project): string { ProjectStatusName(p.status) }
  function ClientOf(p: Project): string { p.clientId }

  function FilterProjects(ps: seq<Project>, status: Option<string>, clientId: Option<string>): (r: seq<Project>)
    ensures forall p :: p in r <==> p in ps && (Given(status) ==> ProjectStatusName(p.status) == status.value)
                                         && (Given(clientId) ==> p.clientId == clientId.value)
    ensures forall p :: multiset(r)[p] == if (Given(status) ==> ProjectStatusName(p.status) == status.value)
                                              && (Given(clientId) ==> p.clientId == clientId.value)
                                           then multiset(ps)[p] else 0
    ensures IsSubsequence(r, ps)
  {
    var byStatus := FilterIf(status, ps, StatusText);
    var r := FilterIf(clientId, byStatus, ClientOf);
    SubsequenceTransitive(r, byStatus, ps);
    r
  }

  /** The JSON body; a falsy field is None. */
  datatype ProjectBody = ProjectBody(
    name: string, description: Option<string>, clientId: string, clientName: Option<string>,
    status: Option<ProjectStatus>, startDate: Instant, endDate: Instant, budget: Option<int>,
    progress: Option<int>, tasks: Option<seq<Task>>)

  /** The defaults: empty description, planning, no budget, no progress, no
      tasks. */
  function FromBody(b: ProjectBody, idTime: Instant, createdAt: Instant): (p: Project)
    ensures p.id == "proj-" + IntText(idTime) && p.createdAt == createdAt
    ensures p.description == b.description.GetOr("") && p.status == b.status.GetOr(Planning)
    ensures p.budget == b.budget.GetOr(0) && p.progress == b.progress.GetOr(0)
    ensures p.tasks == Some(b.tasks.GetOr([]))
    ensures p.name == b.name && p.clientId == b.clientId && p.startDate == b.startDate && p.endDate == b.endDate
  {
    Project("proj-" + IntText(idTime), b.name, b.description.GetOr(""), b.clientId, b.clientName,
            b.status.GetOr(Planning), b.startDate, b.endDate, b.budget.GetOr(0), b.progress.GetOr(0),
            Some(b.tasks.GetOr([])), createdAt)
  }

  method Get(redis: RedisKey<Project>, available: bool, status: Option<string>, clientId: Option<string>)
    returns (data: seq<Project>)
    modifies redis
    ensures var init := InitializeResult(available, old(redis.stored), MockData.Projects);
            redis.stored == init.stored && data == FilterProjects(init.list, status, clientId)
  {
    var list := Initialize(redis, available, MockData.Projects);
    data := FilterProjects(list, status, clientId);
  }

  /** Here Redis is asked first, and initialisation asks again. */
  method Post(redis: RedisKey<Project>, b: ProjectBody, available: bool, initAvailable: bool,
              idTime: Instant, createdAt: Instant) returns (p: Project)
    modifies redis
    ensures p == FromBody(b, idTime, createdAt)
    ensures redis.stored == if available
                            then Some(InitializeResult(initAvailable, old(redis.stored), MockData.Projects).list + [p])
                            else old(redis.stored)
  {
    p := FromBody(b, idTime, createdAt);
    if available {
      var list := Initialize(redis, initAvailable, MockData.Projects);
      redis.stored := Some(list + [p]);
    }
  }
}
