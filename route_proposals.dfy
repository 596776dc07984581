/** app/api/proposals/route.ts without the HTTP plumbing: GET filters the
    initialised list by status and client, POST numbers a new proposal by
    counting stored numbers of the year and appends it when Redis answers. */
module ProposalsRoute {
  import opened Types
  import opened Lists
  import opened Text
  import opened Numbering
  import opened RouteStore
  import MockData
  import DataContext

  const ProposalsKey := "meanval:proposals"

  function StatusText(p: Proposal): string { ProposalStatusName(p.status) }
  function ClientOf(p: Proposal): string { p.clientId }
  function NumberOf(p: Proposal): string { p.number }

  /** The two filters are conjunctive, each applies only when given, and the
      result keeps the list's order. */
  function FilterProposals(ps: seq<Proposal>, status: Option<string>, clientId: Option<string>): (r: seq<Proposal>)
    ensures forall p :: p in r <==> p in ps && (Given(status) ==> ProposalStatusName(p.status) == status.value)
                                         && (Given(clientId) ==> p.clientId == clientId.value)
    ensures forall p :: multiset(r)[p] == if (Given(status) ==> ProposalStatusName(p.status) == status.value)
                                              && (Given(clientId) ==> p.clientId == clientId.value)
                                           then multiset(ps)[p] else 0
    ensures IsSubsequence(r, ps)
  {
    var byStatus := FilterIf(status, ps, StatusText);
    var r := FilterIf(clientId, byStatus, ClientOf);
    SubsequenceTransitive(r, byStatus, ps);
    r
  }

  /** The JSON body; a falsy field is None. */
  datatype ProposalBody = ProposalBody(
    clientId: string, clientName: Option<string>, projectName: string, description: Option<string>,
    amount: Option<int>, status: Option<ProposalStatus>, validUntil: Instant, items: Option<seq<ProposalItem>>)

  /** The new proposal, with `|| 0`, `|| 'draft'` and `|| []` defaults. */
  function FromBody(b: ProposalBody, number: string, idTime: Instant, createdAt: Instant): (p: Proposal)
    ensures p.number == number && p.id == "prop-" + IntText(idTime) && p.createdAt == createdAt
    ensures p.amount == b.amount.GetOr(0) && p.status == b.status.GetOr(ProposalStatus.Draft)
    ensures p.items == Some(b.items.GetOr([]))
    ensures p.clientId == b.clientId && p.projectName == b.projectName && p.validUntil == b.validUntil
  {
    Proposal("prop-" + IntText(idTime), number, b.clientId, b.clientName, b.projectName, b.description,
             b.amount.GetOr(0), b.status.GetOr(ProposalStatus.Draft), b.validUntil, Some(b.items.GetOr([])), createdAt)
  }

  method Get(redis: RedisKey<Proposal>, available: bool, status: Option<string>, clientId: Option<string>)
    returns (data: seq<Proposal>)
    modifies redis
    ensures var init := InitializeResult(available, old(redis.stored), MockData.Proposals);
            redis.stored == init.stored && data == FilterProposals(init.list, status, clientId)
  {
    var list := Initialize(redis, available, MockData.Proposals);
    data := FilterProposals(list, status, clientId);
  }

  /** Redis is asked twice: while initialising and before the write. The new
      proposal is returned whether or not it was stored. */
  method Post(redis: RedisKey<Proposal>, b: ProposalBody, readAvailable: bool, writeAvailable: bool,
              year: int, idTime: Instant, createdAt: Instant) returns (p: Proposal)
    modifies redis
    ensures var init := InitializeResult(readAvailable, old(redis.stored), MockData.Proposals);
            p == FromBody(b, NextNumber(init.list, NumberOf, "TEK", year), idTime, createdAt)
            && redis.stored == Posted(writeAvailable, init.list, p, init.stored)
  {
    var list := Initialize(redis, readAvailable, MockData.Proposals);
    p := FromBody(b, NextNumber(list, NumberOf, "TEK", year), idTime, createdAt);
    if writeAvailable {
      redis.stored := Some(list + [p]);
    }
  }

  /** On a list the client store numbered densely in one year, the route's
      count finds every proposal, so both hand out the same next number. */
  lemma AgreesWithStoreWhenDense(ps: seq<Proposal>, year: int)
    requires DataContext.DenseNumbers(ps, year)
    ensures NextNumber(ps, NumberOf, "TEK", year) == DocumentNumber("TEK", year, |ps| + 1)
  {
    var m := HasPrefix(NumberOf, NumberPrefix("TEK", year));
    forall k | 0 <= k < |ps| ensures m(ps[k]) {
      assert ps[k].number == DocumentNumber("TEK", year, k + 1);
      OwnPrefixFound("TEK", year, k + 1);
      assert NumberOf(ps[k]) == ps[k].number;
      assert m(ps[k]) == Contains(NumberOf(ps[k]), NumberPrefix("TEK", year));
    }
    FilterAll(ps, m);
  }

  /** Over the seed, the route numbers `TEK-2024-006` in 2024 and starts at
      `-001` in any other four-digit year: numbers of other years never
      count. */
  lemma SeedNextNumber(year: int)
    requires 1000 <= year <= 9999
    ensures NextNumber(MockData.Proposals, NumberOf, "TEK", 2024) == DocumentNumber("TEK", 2024, 6)
    ensures year != 2024 ==> NextNumber(MockData.Proposals, NumberOf, "TEK", year) == DocumentNumber("TEK", year, 1)
  {
    MockData.SeedProposalNumbers();
    assert DataContext.DenseNumbers(MockData.Proposals, 2024);
    AgreesWithStoreWhenDense(MockData.Proposals, 2024);
    if year != 2024 {
      forall k | 0 <= k < |MockData.Proposals|
        ensures !Contains(NumberOf(MockData.Proposals[k]), NumberPrefix("TEK", year))
      {
        PrefixFoundOnlyInOwn("TEK", year, "TEK", 2024, k + 1);
      }
      FirstOfYear(MockData.Proposals, NumberOf, "TEK", year);
    }
  }
}
