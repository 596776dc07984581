/** app/api/contracts/route.ts without the HTTP plumbing: GET filters by
    status, client and project; POST numbers `SOZ-{year}-NNN` by counting
    stored numbers containing `SOZ-{year}`. */
module ContractsRoute {
  import opened Types
  import opened Lists
  import opened Text
  import opened Numbering
  import opened RouteStore
  import MockData

  const ContractsKey := "meanval:contracts"

  function StatusText(c: Contract): string { ContractStatusName(c.status) }
  function ClientOf(c: Contract): string { c.clientId }
  function ProjectOf(c: Contract): string { c.projectId }
  function NumberOf(c: Contract): string { c.number }

  /** Three conjunctive filters, each only when given, keeping the order. */
  function FilterContracts(cs: seq<Contract>, status: Option<string>, clientId: Option<string>,
                           projectId: Option<string>): (r: seq<Contract>)
    ensures forall c :: c in r <==> c in cs && (Given(status) ==> ContractStatusName(c.status) == status.value)
                                         && (Given(clientId) ==> c.clientId == clientId.value)
                                         && (Given(projectId) ==> c.projectId == projectId.value)
    ensures forall c :: multiset(r)[c] == if (Given(status) ==> ContractStatusName(c.status) == status.value)
                                              && (Given(clientId) ==> c.clientId == clientId.value)
                                              && (Given(projectId) ==> c.projectId == projectId.value)
                                           then multiset(cs)[c] else 0
    ensures IsSubsequence(r, cs)
  {
    var byStatus := FilterIf(status, cs, StatusText);
    var byClient := FilterIf(clientId, byStatus, ClientOf);
    var r := FilterIf(projectId, byClient, ProjectOf);
    SubsequenceTransitive(byClient, byStatus, cs);
    SubsequenceTransitive(r, byClient, cs);
    r
  }

  /** The JSON body; a falsy field is None. */
  datatype ContractBody = ContractBody(
    projectId: string, projectName: Option<string>, clientId: string, clientName: Option<string>,
    status: Option<ContractStatus>, content: Option<string>)

  /** A new contract is a draft unless the body says otherwise, and is never
      signed at creation. */
  function FromBody(b: ContractBody, number: string, idTime: Instant, createdAt: Instant): (c: Contract)
    ensures c.number == number && c.id == "cont-" + IntText(idTime) && c.createdAt == createdAt
    ensures c.status == b.status.GetOr(ContractStatus.Draft) && c.signedAt.None?
    ensures c.projectId == b.projectId && c.clientId == b.clientId && c.content == b.content
  {
    Contract("cont-" + IntText(idTime), number, b.projectId, b.projectName, b.clientId, b.clientName,
             b.status.GetOr(ContractStatus.Draft), b.content, None, createdAt)
  }

  method Get(redis: RedisKey<Contract>, available: bool, status: Option<string>, clientId: Option<string>,
             projectId: Option<string>) returns (data: seq<Contract>)
    modifies redis
    ensures var init := InitializeResult(available, old(redis.stored), MockData.Contracts);
            redis.stored == init.stored && data == FilterContracts(init.list, status, clientId, projectId)
  {
    var list := Initialize(redis, available, MockData.Contracts);
    data := FilterContracts(list, status, clientId, projectId);
  }

  method Post(redis: RedisKey<Contract>, b: ContractBody, readAvailable: bool, writeAvailable: bool,
              year: int, idTime: Instant, createdAt: Instant) returns (c: Contract)
    modifies redis
    ensures var init := InitializeResult(readAvailable, old(redis.stored), MockData.Contracts);
            c == FromBody(b, NextNumber(init.list, NumberOf, "SOZ", year), idTime, createdAt)
            && redis.stored == Posted(writeAvailable, init.list, c, init.stored)
  {
    var list := Initialize(redis, readAvailable, MockData.Contracts);
    c := FromBody(b, NextNumber(list, NumberOf, "SOZ", year), idTime, createdAt);
    if writeAvailable {
      redis.stored := Some(list + [c]);
    }
  }

  /** The seeded contracts are numbered `SÖZ-`, which the search for
      `SOZ-{year}` never matches: over the seed, every year starts at
      `SOZ-{year}-001`. */
  lemma SeedNeverCounted(year: int)
    requires 1000 <= year <= 9999
    ensures NextNumber(MockData.Contracts, NumberOf, "SOZ", year) == DocumentNumber("SOZ", year, 1)
  {
    MockData.SeedContractNumbers();
    forall k | 0 <= k < |MockData.Contracts|
      ensures !Contains(NumberOf(MockData.Contracts[k]), NumberPrefix("SOZ", year))
    {
      PrefixFoundOnlyInOwn("SOZ", year, "SÖZ", 2024, k + 1);
    }
    FirstOfYear(MockData.Contracts, NumberOf, "SOZ", year);
  }
}
