/** The client-side entity store of lib/data-context.tsx: five ordered
    collections with add, update (a shallow-merge patch), delete and get,
    document numbering, and the load and save effects against browser
    storage.

    Each clock reading of the source (`Date.now()`, `new Date()`,
    `getFullYear()`) is a parameter. */
module DataContext {
  import opened Types
  import opened Lists
  import opened Text
  import opened Numbering
  import opened Persistence
  import MockData

  // ------------------------------------------------------ operations by id

  /** `s.map(x => x.id === id ? f(x) : x)`. */
  function UpdateById<T>(s: seq<T>, id: string, idOf: T -> string, f: T -> T): (r: seq<T>)
    ensures |r| == |s|
    ensures forall i :: 0 <= i < |s| ==> r[i] == if idOf(s[i]) == id then f(s[i]) else s[i]
  {
    MapWhere(s, (x: T) => idOf(x) == id, f)
  }

  /** `s.filter(x => x.id !== id)`. */
  function DeleteById<T(==,!new)>(s: seq<T>, id: string, idOf: T -> string): (r: seq<T>)
    ensures forall i :: 0 <= i < |r| ==> idOf(r[i]) != id
    ensures forall x :: x in r <==> x in s && idOf(x) != id
    ensures forall x :: multiset(r)[x] == if idOf(x) != id then multiset(s)[x] else 0
    ensures IsSubsequence(r, s)
  {
    var keep := (x: T) => idOf(x) != id;
    FilterIsSubsequence(s, keep);
    forall x ensures x in Filter(s, keep) <==> x in s && keep(x) {
      FilterMember(s, keep, x);
    }
    forall x ensures multiset(Filter(s, keep))[x] == if keep(x) then multiset(s)[x] else 0 {
      FilterMultiplicity(s, keep, x);
    }
    Filter(s, keep)
  }

  /** `s.find(x => key(x) === k)`: the first record with that key. */
  function FindBy<T>(s: seq<T>, k: string, key: T -> string): (r: Option<T>)
    ensures r.Some? <==> exists i :: 0 <= i < |s| && key(s[i]) == k
    ensures r.Some? ==> exists i :: 0 <= i < |s| && r.value == s[i] && key(s[i]) == k
                          && forall j :: 0 <= j < i ==> key(s[j]) != k
  {
    Find(s, (x: T) => key(x) == k)
  }

  /** An update of an id no record has changes nothing. */
  lemma UpdateAbsent<T>(s: seq<T>, id: string, idOf: T -> string, f: T -> T)
    requires forall i :: 0 <= i < |s| ==> idOf(s[i]) != id
    ensures UpdateById(s, id, idOf, f) == s
  {
  }

  /** Deleting an id no record has is a no-op. */
  lemma DeleteAbsent<T(!new)>(s: seq<T>, id: string, idOf: T -> string)
    requires forall i :: 0 <= i < |s| ==> idOf(s[i]) != id
    ensures DeleteById(s, id, idOf) == s
  {
    FilterAll(s, (x: T) => idOf(x) != id);
  }

  /** Deleting twice is deleting once. */
  lemma DeleteTwice<T(!new)>(s: seq<T>, id: string, idOf: T -> string)
    ensures DeleteById(DeleteById(s, id, idOf), id, idOf) == DeleteById(s, id, idOf)
  {
    DeleteAbsent(DeleteById(s, id, idOf), id, idOf);
  }

  /** Nothing with the id can be found after a delete. */
  lemma FindAfterDelete<T(!new)>(s: seq<T>, id: string, idOf: T -> string)
    ensures FindBy(DeleteById(s, id, idOf), id, idOf).None?
  {
  }

  // ------------------------------------------------------------- patches

  /** The later of two patch entries wins, as a later spread does. */
  function Then<T>(a: Option<T>, b: Option<T>): Option<T> {
    if b.Some? then b else a
  }

  /** `Partial<Project>`; an optional field of the record can be patched to
      `undefined`, hence the nested Option. */
  datatype ProjectPatch = ProjectPatch(
    id: Option<string>, name: Option<string>, description: Option<string>,
    clientId: Option<string>, clientName: Option<Option<string>>, status: Option<ProjectStatus>,
    startDate: Option<Instant>, endDate: Option<Instant>, budget: Option<int>,
    progress: Option<int>, tasks: Option<Option<seq<Task>>>, createdAt: Option<Instant>)

  datatype ClientPatch = ClientPatch(
    id: Option<string>, name: Option<string>, email: Option<string>, phone: Option<string>,
    company: Option<string>, address: Option<Option<string>>, status: Option<ClientStatus>,
    totalProjects: Option<int>, totalRevenue: Option<int>, createdAt: Option<Instant>)

  datatype ProposalPatch = ProposalPatch(
    id: Option<string>, number: Option<string>, clientId: Option<string>,
    clientName: Option<Option<string>>, projectName: Option<string>,
    description: Option<Option<string>>, amount: Option<int>, status: Option<ProposalStatus>,
    validUntil: Option<Instant>, items: Option<Option<seq<ProposalItem>>>, createdAt: Option<Instant>)

  datatype ContractPatch = ContractPatch(
    id: Option<string>, number: Option<string>, projectId: Option<string>,
    projectName: Option<Option<string>>, clientId: Option<string>, clientName: Option<Option<string>>,
    status: Option<ContractStatus>, content: Option<Option<string>>,
    signedAt: Option<Option<Instant>>, createdAt: Option<Instant>)

  datatype ShowcasePatch = ShowcasePatch(
    id: Option<string>, projectId: Option<string>, title: Option<string>,
    introduction: Option<string>, items: Option<seq<ShowcaseItem>>, totalAmount: Option<int>,
    discount: Option<Option<int>>, finalAmount: Option<int>, notes: Option<Option<string>>,
    status: Option<ShowcaseStatus>, sentAt: Option<Option<Instant>>, viewedAt: Option<Option<Instant>>,
    respondedAt: Option<Option<Instant>>, createdAt: Option<Instant>, updatedAt: Option<Instant>)

  /** `{...p, ...q}`: every field the patch carries overwrites, `id`
      included. */
  function MergeProject(p: Project, q: ProjectPatch): Project {
    Project(q.id.GetOr(p.id), q.name.GetOr(p.name), q.description.GetOr(p.description),
            q.clientId.GetOr(p.clientId), q.clientName.GetOr(p.clientName), q.status.GetOr(p.status),
            q.startDate.GetOr(p.startDate), q.endDate.GetOr(p.endDate), q.budget.GetOr(p.budget),
            q.progress.GetOr(p.progress), q.tasks.GetOr(p.tasks), q.createdAt.GetOr(p.createdAt))
  }

  function MergeClient(c: Client, q: ClientPatch): Client {
    Client(q.id.GetOr(c.id), q.name.GetOr(c.name), q.email.GetOr(c.email), q.phone.GetOr(c.phone),
           q.company.GetOr(c.company), q.address.GetOr(c.address), q.status.GetOr(c.status),
           q.totalProjects.GetOr(c.totalProjects), q.totalRevenue.GetOr(c.totalRevenue),
           q.createdAt.GetOr(c.createdAt))
  }

  /** `{...p, ...q}`: `number` included. */
  function MergeProposal(p: Proposal, q: ProposalPatch): Proposal {
    Proposal(q.id.GetOr(p.id), q.number.GetOr(p.number), q.clientId.GetOr(p.clientId),
             q.clientName.GetOr(p.clientName), q.projectName.GetOr(p.projectName),
             q.description.GetOr(p.description), q.amount.GetOr(p.amount), q.status.GetOr(p.status),
             q.validUntil.GetOr(p.validUntil), q.items.GetOr(p.items), q.createdAt.GetOr(p.createdAt))
  }

  /** `{...c, ...q}`: nothing stamps `signedAt`; only the patch can set it. */
  function MergeContract(c: Contract, q: ContractPatch): Contract {
    Contract(q.id.GetOr(c.id), q.number.GetOr(c.number), q.projectId.GetOr(c.projectId),
             q.projectName.GetOr(c.projectName), q.clientId.GetOr(c.clientId),
             q.clientName.GetOr(c.clientName), q.status.GetOr(c.status), q.content.GetOr(c.content),
             q.signedAt.GetOr(c.signedAt), q.createdAt.GetOr(c.createdAt))
  }

  function MergeShowcase(s: Showcase, q: ShowcasePatch): Showcase {
    Showcase(q.id.GetOr(s.id), q.projectId.GetOr(s.projectId), q.title.GetOr(s.title),
             q.introduction.GetOr(s.introduction), q.items.GetOr(s.items),
             q.totalAmount.GetOr(s.totalAmount), q.discount.GetOr(s.discount),
             q.finalAmount.GetOr(s.finalAmount), q.notes.GetOr(s.notes), q.status.GetOr(s.status),
             q.sentAt.GetOr(s.sentAt), q.viewedAt.GetOr(s.viewedAt), q.respondedAt.GetOr(s.respondedAt),
             q.createdAt.GetOr(s.createdAt), q.updatedAt.GetOr(s.updatedAt))
  }

  const NoProjectChange := ProjectPatch(None, None, None, None, None, None, None, None, None, None, None, None)
  const NoProposalChange := ProposalPatch(None, None, None, None, None, None, None, None, None, None, None)
  const NoContractChange := ContractPatch(None, None, None, None, None, None, None, None, None, None)
  const NoShowcaseChange := ShowcasePatch(None, None, None, None, None, None, None, None, None, None, None, None, None, None, None)

  function ThenProject(a: ProjectPatch, b: ProjectPatch): ProjectPatch {
    ProjectPatch(Then(a.id, b.id), Then(a.name, b.name), Then(a.description, b.description),
                 Then(a.clientId, b.clientId), Then(a.clientName, b.clientName), Then(a.status, b.status),
                 Then(a.startDate, b.startDate), Then(a.endDate, b.endDate), Then(a.budget, b.budget),
                 Then(a.progress, b.progress), Then(a.tasks, b.tasks), Then(a.createdAt, b.createdAt))
  }

  /** The empty patch leaves a project as it was. */
  lemma MergeProjectEmpty(p: Project)
    ensures MergeProject(p, NoProjectChange) == p
  {
  }

  /** Two updates in a row are one update with the patches spread in order,
      and repeating an update changes nothing more. */
  lemma MergeProjectTwice(p: Project, a: ProjectPatch, b: ProjectPatch)
    ensures MergeProject(MergeProject(p, a), b) == MergeProject(p, ThenProject(a, b))
    ensures MergeProject(MergeProject(p, a), a) == MergeProject(p, a)
  {
  }

  // ------------------------------------------------- the five collections' edits

  function ProjectId(p: Project): string { p.id }
  function ClientId(c: Client): string { c.id }
  function ProposalId(p: Proposal): string { p.id }
  function ContractId(c: Contract): string { c.id }
  function ShowcaseId(s: Showcase): string { s.id }
  function ShowcaseProject(s: Showcase): string { s.projectId }

  function UpdateProjects(ps: seq<Project>, id: string, q: ProjectPatch): seq<Project> {
    UpdateById(ps, id, ProjectId, (p: Project) => MergeProject(p, q))
  }

  function UpdateClients(cs: seq<Client>, id: string, q: ClientPatch): seq<Client> {
    UpdateById(cs, id, ClientId, (c: Client) => MergeClient(c, q))
  }

  function UpdateProposals(ps: seq<Proposal>, id: string, q: ProposalPatch): seq<Proposal> {
    UpdateById(ps, id, ProposalId, (p: Proposal) => MergeProposal(p, q))
  }

  function UpdateContracts(cs: seq<Contract>, id: string, q: ContractPatch): seq<Contract> {
    UpdateById(cs, id, ContractId, (c: Contract) => MergeContract(c, q))
  }

  /** `{...s, ...q, updatedAt: new Date()}`: the merge of one showcase,
      stamped with the update's time, which comes after the patch. */
  function StampedMerge(s: Showcase, q: ShowcasePatch, now: Instant): Showcase {
    MergeShowcase(s, q).(updatedAt := now)
  }

  function UpdateShowcases(ss: seq<Showcase>, id: string, q: ShowcasePatch, now: Instant): seq<Showcase> {
    UpdateById(ss, id, ShowcaseId, (s: Showcase) => StampedMerge(s, q, now))
  }

  /** An updated showcase always carries the update's time, whatever the
      patch says about `updatedAt`; the other fields are the merge. */
  lemma UpdateShowcaseStamps(ss: seq<Showcase>, id: string, q: ShowcasePatch, now: Instant)
    ensures forall i :: 0 <= i < |ss| && ss[i].id == id ==>
              UpdateShowcases(ss, id, q, now)[i].updatedAt == now
              && UpdateShowcases(ss, id, q, now)[i] == MergeShowcase(ss[i], q.(updatedAt := Some(now)))
    ensures forall i :: 0 <= i < |ss| && ss[i].id != id ==> UpdateShowcases(ss, id, q, now)[i] == ss[i]
  {
  }

  /** Marking a contract signed through an update that does not carry
      `signedAt` leaves `signedAt` as it was. */
  lemma SigningDoesNotStamp(cs: seq<Contract>, id: string)
    ensures var r := UpdateContracts(cs, id, NoContractChange.(status := Some(Signed)));
            forall i :: 0 <= i < |cs| ==>
              r[i].signedAt == cs[i].signedAt && (cs[i].id == id ==> r[i].status == Signed)
  {
  }

  /** An update can rewrite a proposal's number: nothing protects it. */
  lemma UpdateRenumbers(ps: seq<Proposal>, id: string, n: string)
    ensures var r := UpdateProposals(ps, id, NoProposalChange.(number := Some(n)));
            forall i :: 0 <= i < |ps| ==> r[i].number == (if ps[i].id == id then n else ps[i].number)
  {
  }

  /** An update can rewrite the id itself, after which the record is no
      longer found under its old id. */
  lemma UpdateRenames(ps: seq<Project>, id: string, other: string)
    requires other != id
    ensures FindBy(UpdateProjects(ps, id, NoProjectChange.(id := Some(other))), id, ProjectId).None?
  {
    var r := UpdateProjects(ps, id, NoProjectChange.(id := Some(other)));
    assert forall i :: 0 <= i < |r| ==> r[i].id != id;
  }

  // ------------------------------------------------------------ creation

  /** `Omit<Project, 'id' | 'createdAt'>`. */
  datatype ProjectDraft = ProjectDraft(
    name: string, description: string, clientId: string, clientName: Option<string>,
    status: ProjectStatus, startDate: Instant, endDate: Instant, budget: int, progress: int,
    tasks: Option<seq<Task>>)

  /** `Omit<Client, 'id' | 'createdAt' | 'totalProjects' | 'totalRevenue'>`. */
  datatype ClientDraft = ClientDraft(
    name: string, email: string, phone: string, company: string, address: Option<string>,
    status: ClientStatus)

  /** `Omit<Proposal, 'id' | 'createdAt' | 'number'>`. */
  datatype ProposalDraft = ProposalDraft(
    clientId: string, clientName: Option<string>, projectName: string, description: Option<string>,
    amount: int, status: ProposalStatus, validUntil: Instant, items: Option<seq<ProposalItem>>)

  /** `Omit<Contract, 'id' | 'createdAt' | 'number'>`. */
  datatype ContractDraft = ContractDraft(
    projectId: string, projectName: Option<string>, clientId: string, clientName: Option<string>,
    status: ContractStatus, content: Option<string>, signedAt: Option<Instant>)

  /** `Omit<ProjectShowcase, 'id' | 'createdAt' | 'updatedAt'>`. */
  datatype ShowcaseDraft = ShowcaseDraft(
    projectId: string, title: string, introduction: string, items: seq<ShowcaseItem>,
    totalAmount: int, discount: Option<int>, finalAmount: int, notes: Option<string>,
    status: ShowcaseStatus, sentAt: Option<Instant>, viewedAt: Option<Instant>, respondedAt: Option<Instant>)

  /** `${prefix}${Date.now()}`. */
  function ClockId(prefix: string, t: Instant): string {
    prefix + IntText(t)
  }

  /** Ids from different milliseconds differ; two records created in the
      same millisecond share an id. */
  lemma ClockIdInjective(prefix: string, t1: Instant, t2: Instant)
    ensures ClockId(prefix, t1) == ClockId(prefix, t2) <==> t1 == t2
  {
    if ClockId(prefix, t1) == ClockId(prefix, t2) {
      assert IntText(t1) == ClockId(prefix, t1)[|prefix|..];
      assert IntText(t2) == ClockId(prefix, t2)[|prefix|..];
      IntTextInjective(t1, t2);
    }
  }

  function NewProject(d: ProjectDraft, idTime: Instant, createdAt: Instant): Project {
    Project(ClockId("proj-", idTime), d.name, d.description, d.clientId, d.clientName, d.status,
            d.startDate, d.endDate, d.budget, d.progress, d.tasks, createdAt)
  }

  /** A new client has no projects and no revenue; the rest is the draft's,
      with a clock id and creation time. */
  function NewClient(d: ClientDraft, idTime: Instant, createdAt: Instant): (c: Client)
    ensures c.totalProjects == 0 && c.totalRevenue == 0
    ensures c.id == ClockId("client-", idTime) && c.createdAt == createdAt
    ensures c.name == d.name && c.email == d.email && c.phone == d.phone && c.company == d.company
    ensures c.address == d.address && c.status == d.status
  {
    Client(ClockId("client-", idTime), d.name, d.email, d.phone, d.company, d.address, d.status,
           0, 0, createdAt)
  }

  /** A new proposal is numbered `TEK-{year}-NNN` with `count` padded. */
  function NewProposal(d: ProposalDraft, count: nat, year: int, idTime: Instant, createdAt: Instant): Proposal {
    Proposal(ClockId("prop-", idTime), DocumentNumber("TEK", year, count), d.clientId, d.clientName,
             d.projectName, d.description, d.amount, d.status, d.validUntil, d.items, createdAt)
  }

  function NewContract(d: ContractDraft, count: nat, year: int, idTime: Instant, createdAt: Instant): Contract {
    Contract(ClockId("cont-", idTime), DocumentNumber("SOZ", year, count), d.projectId, d.projectName,
             d.clientId, d.clientName, d.status, d.content, d.signedAt, createdAt)
  }

  /** `createdAt` and `updatedAt` come from two clock readings taken one
      after the other. */
  function NewShowcase(d: ShowcaseDraft, idTime: Instant, createdAt: Instant, updatedAt: Instant): Showcase {
    Showcase(ClockId("showcase-", idTime), d.projectId, d.title, d.introduction, d.items,
             d.totalAmount, d.discount, d.finalAmount, d.notes, d.status, d.sentAt, d.viewedAt,
             d.respondedAt, createdAt, updatedAt)
  }

  /** Every showcase was created no later than it was last updated, and
      neither lies after `now`. */
  predicate TimesOrdered(ss: seq<Showcase>, now: Instant) {
    forall k :: 0 <= k < |ss| ==> ss[k].createdAt <= ss[k].updatedAt <= now
  }

  /** A showcase added at two readings taken one after the other keeps
      every showcase's creation no later than its last update. */
  lemma AddKeepsTimesOrdered(ss: seq<Showcase>, d: ShowcaseDraft, idTime: Instant, t1: Instant, t2: Instant)
    requires TimesOrdered(ss, t1) && t1 <= t2
    ensures TimesOrdered(ss + [NewShowcase(d, idTime, t1, t2)], t2)
  {
    var added := ss + [NewShowcase(d, idTime, t1, t2)];
    forall k | 0 <= k < |added| ensures added[k].createdAt <= added[k].updatedAt <= t2 {
      if k < |ss| { assert added[k] == ss[k]; }
    }
  }

  /** An update at a later time keeps the order, as long as the patch does
      not rewrite `createdAt`. */
  lemma UpdateKeepsTimesOrdered(ss: seq<Showcase>, t: Instant, id: string, q: ShowcasePatch, now: Instant)
    requires TimesOrdered(ss, t) && t <= now && q.createdAt.None?
    ensures TimesOrdered(UpdateShowcases(ss, id, q, now), now)
  {
    var r := UpdateShowcases(ss, id, q, now);
    forall k | 0 <= k < |r| ensures r[k].createdAt <= r[k].updatedAt <= now {
      if ss[k].id == id {
        assert r[k] == MergeShowcase(ss[k], q).(updatedAt := now);
      } else {
        assert r[k] == ss[k];
      }
    }
  }

  /** Nothing protects `createdAt` from a patch: moving it past the update's
      time leaves a showcase updated before it was created. */
  lemma PatchBreaksTimesOrdered(ss: seq<Showcase>, k: nat, q: ShowcasePatch, now: Instant)
    requires k < |ss| && q.createdAt.Some? && q.createdAt.value > now
    ensures !TimesOrdered(UpdateShowcases(ss, ss[k].id, q, now), now)
  {
    var r := UpdateShowcases(ss, ss[k].id, q, now);
    assert r[k] == MergeShowcase(ss[k], q).(updatedAt := now);
  }

  /** The proposals are numbered densely in one year: the k-th has number k. */
  predicate DenseNumbers(ps: seq<Proposal>, year: int) {
    forall k :: 0 <= k < |ps| ==> ps[k].number == DocumentNumber("TEK", year, k + 1)
  }

  /** Numbering by `length + 1` keeps a dense list dense. */
  lemma AddKeepsDense(ps: seq<Proposal>, d: ProposalDraft, year: int, idTime: Instant, createdAt: Instant)
    requires DenseNumbers(ps, year)
    ensures DenseNumbers(ps + [NewProposal(d, |ps| + 1, year, idTime, createdAt)], year)
  {
    var p := NewProposal(d, |ps| + 1, year, idTime, createdAt);
    var s := ps + [p];
    forall k | 0 <= k < |s| ensures s[k].number == DocumentNumber("TEK", year, k + 1) {
      if k < |ps| {
        assert s[k] == ps[k];
      } else {
        assert s[k] == p;
      }
    }
  }

  /** After a delete, numbering by `length + 1` hands out the number the last
      proposal already has. */
  lemma NumberReusedAfterDelete(ps: seq<Proposal>, id: string, d: ProposalDraft, year: int, idTime: Instant, createdAt: Instant)
    requires DenseNumbers(ps, year)
    requires exists i :: 0 <= i < |ps| && ps[i].id == id
    ensures var rest := DeleteById(ps, id, ProposalId);
            var p := NewProposal(d, |rest| + 1, year, idTime, createdAt);
            |rest| < |ps| && exists j :: 0 <= j < |ps| && ps[j].number == p.number
  {
    var rest := DeleteById(ps, id, ProposalId);
    var i :| 0 <= i < |ps| && ps[i].id == id;
    assert ps[i] !in rest;
    SubsequenceShorter(rest, ps, ps[i]);
    assert ps[|rest|].number == DocumentNumber("TEK", year, |rest| + 1);
  }

  /** A subsequence that misses an element is shorter. */
  lemma {:induction false} SubsequenceShorter<T>(a: seq<T>, b: seq<T>, x: T)
    requires IsSubsequence(a, b) && x in b && x !in a
    ensures |a| < |b|
    decreases |b|
  {
    if a == [] {
    } else if a[0] == b[0] {
      assert x != b[0];
      assert x in b[1..];
      SubsequenceShorter(a[1..], b[1..], x);
    } else {
      SubsequenceLength(a, b[1..]);
    }
  }

  lemma {:induction false} SubsequenceLength<T>(a: seq<T>, b: seq<T>)
    requires IsSubsequence(a, b)
    ensures |a| <= |b|
    decreases |b|
  {
    if a != [] {
      if a[0] == b[0] {
        SubsequenceLength(a[1..], b[1..]);
      } else {
        SubsequenceLength(a, b[1..]);
      }
    }
  }

  // --------------------------------------------------------------- the store

  const Seed: Collections := Collections(MockData.Projects, MockData.Clients, MockData.Proposals,
                                         MockData.Contracts, MockData.Showcases)

  /** `DataProvider`'s state: the five collections, whether loading has
      finished, and the browser-storage entry under `StorageKey`. */
  class DataProvider {
    var projects: seq<Project>
    var clients: seq<Client>
    var proposals: seq<Proposal>
    var contracts: seq<Contract>
    var showcases: seq<Showcase>
    var isLoaded: bool
    var storage: Stored

    function Contents(): Collections
      reads this
    {
      Collections(projects, clients, proposals, contracts, showcases)
    }

    /** Once loading has finished, storage holds what the collections hold. */
    predicate Synced()
      reads this
    {
      isLoaded ==> storage == Saved(Save(Contents()))
    }

    /** What the save effect leaves in storage after a change. */
    function Persisted(previous: Stored): Stored
      reads this
    {
      if isLoaded then Saved(Save(Contents())) else previous
    }

    /** Every collection starts at the seed, and nothing is loaded yet. */
    constructor(stored: Stored)
      ensures Contents() == Seed && !isLoaded && storage == stored && Synced()
    {
      projects := Seed.projects;
      clients := Seed.clients;
      proposals := Seed.proposals;
      contracts := Seed.contracts;
      showcases := Seed.showcases;
      isLoaded := false;
      storage := stored;
    }

    /** The save effect. */
    method SaveEffect()
      modifies this`storage
      ensures storage == Persisted(old(storage)) && Synced()
    {
      if isLoaded {
        storage := Saved(Save(Contents()));
      }
    }

    /** The mount effect reads storage into the collections and marks loading
        finished; the change of `isLoaded` then runs the save effect. */
    method Mount()
      modifies this
      ensures Contents() == Load(old(Contents()), old(storage))
      ensures isLoaded && storage == Saved(Save(Contents())) && Synced()
    {
      var c := Load(Contents(), storage);
      projects, clients, proposals, contracts, showcases := c.projects, c.clients, c.proposals, c.contracts, c.showcases;
      isLoaded := true;
      SaveEffect();
    }

    method AddProject(d: ProjectDraft, idTime: Instant, createdAt: Instant) returns (p: Project)
      modifies this
      ensures p == NewProject(d, idTime, createdAt)
      ensures Contents() == old(Contents()).(projects := old(projects) + [p])
      ensures isLoaded == old(isLoaded) && storage == Persisted(old(storage)) && Synced()
    {
      p := NewProject(d, idTime, createdAt);
      projects := projects + [p];
      SaveEffect();
    }

    method UpdateProject(id: string, q: ProjectPatch)
      modifies this
      ensures Contents() == old(Contents()).(projects := UpdateProjects(old(projects), id, q))
      ensures isLoaded == old(isLoaded) && storage == Persisted(old(storage)) && Synced()
    {
      projects := UpdateProjects(projects, id, q);
      SaveEffect();
    }

    method DeleteProject(id: string)
      modifies this
      ensures Contents() == old(Contents()).(projects := DeleteById(old(projects), id, ProjectId))
      ensures isLoaded == old(isLoaded) && storage == Persisted(old(storage)) && Synced()
    {
      projects := DeleteById(projects, id, ProjectId);
      SaveEffect();
    }

    function GetProject(id: string): Option<Project>
      reads this
    {
      FindBy(projects, id, ProjectId)
    }

    method AddClient(d: ClientDraft, idTime: Instant, createdAt: Instant) returns (c: Client)
      modifies this
      ensures c == NewClient(d, idTime, createdAt)
      ensures Contents() == old(Contents()).(clients := old(clients) + [c])
      ensures isLoaded == old(isLoaded) && storage == Persisted(old(storage)) && Synced()
    {
      c := NewClient(d, idTime, createdAt);
      clients := clients + [c];
      SaveEffect();
    }

    method UpdateClient(id: string, q: ClientPatch)
      modifies this
      ensures Contents() == old(Contents()).(clients := UpdateClients(old(clients), id, q))
      ensures isLoaded == old(isLoaded) && storage == Persisted(old(storage)) && Synced()
    {
      clients := UpdateClients(clients, id, q);
      SaveEffect();
    }

    method DeleteClient(id: string)
      modifies this
      ensures Contents() == old(Contents()).(clients := DeleteById(old(clients), id, ClientId))
      ensures isLoaded == old(isLoaded) && storage == Persisted(old(storage)) && Synced()
    {
      clients := DeleteById(clients, id, ClientId);
      SaveEffect();
    }

    function GetClient(id: string): Option<Client>
      reads this
    {
      FindBy(clients, id, ClientId)
    }

    /** The number counts the proposals held when the call is made. */
    method AddProposal(d: ProposalDraft, year: int, idTime: Instant, createdAt: Instant) returns (p: Proposal)
      modifies this
      ensures p == NewProposal(d, |old(proposals)| + 1, year, idTime, createdAt)
      ensures Contents() == old(Contents()).(proposals := old(proposals) + [p])
      ensures isLoaded == old(isLoaded) && storage == Persisted(old(storage)) && Synced()
    {
      p := NewProposal(d, |proposals| + 1, year, idTime, createdAt);
      proposals := proposals + [p];
      SaveEffect();
    }

    method UpdateProposal(id: string, q: ProposalPatch)
      modifies this
      ensures Contents() == old(Contents()).(proposals := UpdateProposals(old(proposals), id, q))
      ensures isLoaded == old(isLoaded) && storage == Persisted(old(storage)) && Synced()
    {
      proposals := UpdateProposals(proposals, id, q);
      SaveEffect();
    }

    method DeleteProposal(id: string)
      modifies this
      ensures Contents() == old(Contents()).(proposals := DeleteById(old(proposals), id, ProposalId))
      ensures isLoaded == old(isLoaded) && storage == Persisted(old(storage)) && Synced()
    {
      proposals := DeleteById(proposals, id, ProposalId);
      SaveEffect();
    }

    function GetProposal(id: string): Option<Proposal>
      reads this
    {
      FindBy(proposals, id, ProposalId)
    }

    method AddContract(d: ContractDraft, year: int, idTime: Instant, createdAt: Instant) returns (c: Contract)
      modifies this
      ensures c == NewContract(d, |old(contracts)| + 1, year, idTime, createdAt)
      ensures Contents() == old(Contents()).(contracts := old(contracts) + [c])
      ensures isLoaded == old(isLoaded) && storage == Persisted(old(storage)) && Synced()
    {
      c := NewContract(d, |contracts| + 1, year, idTime, createdAt);
      contracts := contracts + [c];
      SaveEffect();
    }

    method UpdateContract(id: string, q: ContractPatch)
      modifies this
      ensures Contents() == old(Contents()).(contracts := UpdateContracts(old(contracts), id, q))
      ensures isLoaded == old(isLoaded) && storage == Persisted(old(storage)) && Synced()
    {
      contracts := UpdateContracts(contracts, id, q);
      SaveEffect();
    }

    method DeleteContract(id: string)
      modifies this
      ensures Contents() == old(Contents()).(contracts := DeleteById(old(contracts), id, ContractId))
      ensures isLoaded == old(isLoaded) && storage == Persisted(old(storage)) && Synced()
    {
      contracts := DeleteById(contracts, id, ContractId);
      SaveEffect();
    }

    function GetContract(id: string): Option<Contract>
      reads this
    {
      FindBy(contracts, id, ContractId)
    }

    method AddShowcase(d: ShowcaseDraft, idTime: Instant, createdAt: Instant, updatedAt: Instant) returns (s: Showcase)
      modifies this
      ensures s == NewShowcase(d, idTime, createdAt, updatedAt)
      ensures Contents() == old(Contents()).(showcases := old(showcases) + [s])
      ensures isLoaded == old(isLoaded) && storage == Persisted(old(storage)) && Synced()
    {
      s := NewShowcase(d, idTime, createdAt, updatedAt);
      showcases := showcases + [s];
      SaveEffect();
    }

    method UpdateShowcase(id: string, q: ShowcasePatch, now: Instant)
      modifies this
      ensures Contents() == old(Contents()).(showcases := UpdateShowcases(old(showcases), id, q, now))
      ensures isLoaded == old(isLoaded) && storage == Persisted(old(storage)) && Synced()
    {
      showcases := UpdateShowcases(showcases, id, q, now);
      SaveEffect();
    }

    method DeleteShowcase(id: string)
      modifies this
      ensures Contents() == old(Contents()).(showcases := DeleteById(old(showcases), id, ShowcaseId))
      ensures isLoaded == old(isLoaded) && storage == Persisted(old(storage)) && Synced()
    {
      showcases := DeleteById(showcases, id, ShowcaseId);
      SaveEffect();
    }

    /** The first showcase of the project. */
    function GetShowcaseByProjectId(projectId: string): Option<Showcase>
      reads this
    {
      FindBy(showcases, projectId, ShowcaseProject)
    }
  }

  // ------------------------------------------------------------- store lemmas

  /** A store that was never loaded writes nothing, whatever it does. */
  lemma NothingSavedBeforeLoad(store: DataProvider, previous: Stored)
    requires !store.isLoaded
    ensures store.Persisted(previous) == previous
  {
  }

  /** With no usable stored document, mounting keeps the initial
      collections (the seed), and a reload of what was saved gives back what
      was saved (dates revived, task due dates as text). */
  lemma MountOutcomes(c: Collections, saved: Collections)
    ensures Load(c, NoEntry) == c && Load(c, Unparseable) == c
    ensures Load(c, Saved(Save(saved))) == Normalize(saved)
  {
    SaveLoad(c, saved);
  }

  /** Two projects added in one millisecond share an id, and a lookup by
      that id finds only the first. */
  lemma SameMillisecondIds(ps: seq<Project>, d1: ProjectDraft, d2: ProjectDraft, t: Instant, c1: Instant, c2: Instant)
    requires forall i :: 0 <= i < |ps| ==> ps[i].id != ClockId("proj-", t)
    ensures var p1 := NewProject(d1, t, c1);
            var p2 := NewProject(d2, t, c2);
            p1.id == p2.id && FindBy(ps + [p1] + [p2], p1.id, ProjectId) == Some(p1)
  {
    var p1 := NewProject(d1, t, c1);
    var p2 := NewProject(d2, t, c2);
    var s := ps + [p1] + [p2];
    assert s[|ps|] == p1;
  }

  /** The seed proposals are numbered densely in 2024, so a delete followed
      by an add in 2024 repeats a seed number. */
  lemma SeedNumberReused(d: ProposalDraft, idTime: Instant, createdAt: Instant)
    ensures DenseNumbers(MockData.Proposals, 2024)
    ensures var rest := DeleteById(MockData.Proposals, MockData.Proposal1.id, ProposalId);
            var p := NewProposal(d, |rest| + 1, 2024, idTime, createdAt);
            exists j :: 0 <= j < |MockData.Proposals| && MockData.Proposals[j].number == p.number
  {
    MockData.SeedProposalNumbers();
    assert MockData.Proposals[0] == MockData.Proposal1;
    NumberReusedAfterDelete(MockData.Proposals, MockData.Proposal1.id, d, 2024, idTime, createdAt);
  }

  /** The store numbers contracts with the code `SOZ`, the seed with `SÖZ`:
      no contract the store creates has a seed contract's number. */
  lemma StoreContractCode(year: int, n: nat, y2: int, k: nat)
    ensures DocumentNumber("SOZ", year, n) != DocumentNumber("SÖZ", y2, k)
  {
    CodesSeparateNumbers("SOZ", "SÖZ", 1, year, n, y2, k);
  }
}
