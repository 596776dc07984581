/** app/api/clients/route.ts without the HTTP plumbing: GET filters by status
    only; POST fills defaults, zeroes the totals and appends the client when
    Redis answers. */
module ClientsRoute {
  import opened Types
  import opened Lists
  import opened Text
  import opened RouteStore
  import MockData

  const ClientsKey := "meanval:clients"

  function StatusText(c: Client): string { ClientStatusName(c.status) }

  /** Without a status every client is returned, in order. */
  function FilterClients(cs: seq<Client>, status: Option<string>): (r: seq<Client>)
    ensures forall c :: c in r <==> c in cs && (Given(status) ==> ClientStatusName(c.status) == status.value)
    ensures forall c :: multiset(r)[c] == if !Given(status) || ClientStatusName(c.status) == status.value
                                           then multiset(cs)[c] else 0
    ensures IsSubsequence(r, cs)
    ensures !Given(status) ==> r == cs
  {
    FilterIf(status, cs, StatusText)
  }

  /** The JSON body; a falsy field is None. */
  datatype ClientBody = ClientBody(
    name: string, email: string, phone: Option<string>, company: Option<string>,
    address: Option<string>, status: Option<ClientStatus>)

  /** A new client has no projects and no revenue; phone and company default
      to empty and the status to active. */
  function FromBody(b: ClientBody, idTime: Instant, createdAt: Instant): (c: Client)
    ensures c.totalProjects == 0 && c.totalRevenue == 0
    ensures c.id == "client-" + IntText(idTime) && c.createdAt == createdAt
    ensures c.phone == b.phone.GetOr("") && c.company == b.company.GetOr("") && c.status == b.status.GetOr(Active)
    ensures c.name == b.name && c.email == b.email && c.address == b.address
  {
    Client("client-" + IntText(idTime), b.name, b.email, b.phone.GetOr(""), b.company.GetOr(""), b.address,
           b.status.GetOr(Active), 0, 0, createdAt)
  }

  method Get(redis: RedisKey<Client>, available: bool, status: Option<string>) returns (data: seq<Client>)
    modifies redis
    ensures var init := InitializeResult(available, old(redis.stored), MockData.Clients);
            redis.stored == init.stored && data == FilterClients(init.list, status)
  {
    var list := Initialize(redis, available, MockData.Clients);
    data := FilterClients(list, status);
  }

  method Post(redis: RedisKey<Client>, b: ClientBody, available: bool, initAvailable: bool,
              idTime: Instant, createdAt: Instant) returns (c: Client)
    modifies redis
    ensures c == FromBody(b, idTime, createdAt)
    ensures redis.stored == if available
                            then Some(InitializeResult(initAvailable, old(redis.stored), MockData.Clients).list + [c])
                            else old(redis.stored)
  {
    c := FromBody(b, idTime, createdAt);
    if available {
      var list := Initialize(redis, initAvailable, MockData.Clients);
      redis.stored := Some(list + [c]);
    }
  }
}
