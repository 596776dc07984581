/** The browser-storage format of the client store (lib/data-context.tsx):
    one document under the key `meanval_data` holding the five collections.

    Serialisation is abstract: a saved record is the record with each Date
    replaced by text, and the reader turns that text back into the Date.
    The loader revives exactly the date fields it names; a task's due date
    is not among them and comes back as text. */
module Persistence {
  import opened Types
  import opened Lists
  import opened Text

  const StorageKey: string := "meanval_data"

  /** The text a saved Date becomes; it always reads back as an instant. */
  type DateText = s: string | ParseInt(s).Some? witness "0"

  function DateToText(t: Instant): (r: DateText)
    ensures ParseInt(r) == Some(t)
  {
    ParseIntText(t);
    IntText(t)
  }

  /** `new Date(text)` on text the writer produced. */
  function TextToDate(s: DateText): Instant {
    ParseInt(s).value
  }

  // ------------------------------------------------------------ saved records

  datatype SavedTask = SavedTask(id: string, title: string, completed: bool, dueDate: Option<string>)

  datatype SavedProject = SavedProject(
    id: string, name: string, description: string, clientId: string, clientName: Option<string>,
    status: ProjectStatus, startDate: DateText, endDate: DateText, budget: int, progress: int,
    tasks: Option<seq<SavedTask>>, createdAt: DateText)

  datatype SavedClient = SavedClient(
    id: string, name: string, email: string, phone: string, company: string, address: Option<string>,
    status: ClientStatus, totalProjects: int, totalRevenue: int, createdAt: DateText)

  datatype SavedProposal = SavedProposal(
    id: string, number: string, clientId: string, clientName: Option<string>, projectName: string,
    description: Option<string>, amount: int, status: ProposalStatus, validUntil: DateText,
    items: Option<seq<ProposalItem>>, createdAt: DateText)

  datatype SavedContract = SavedContract(
    id: string, number: string, projectId: string, projectName: Option<string>, clientId: string,
    clientName: Option<string>, status: ContractStatus, content: Option<string>,
    signedAt: Option<DateText>, createdAt: DateText)

  datatype SavedShowcase = SavedShowcase(
    id: string, projectId: string, title: string, introduction: string, items: seq<ShowcaseItem>,
    totalAmount: int, discount: Option<int>, finalAmount: int, notes: Option<string>,
    status: ShowcaseStatus, sentAt: Option<DateText>, viewedAt: Option<DateText>,
    respondedAt: Option<DateText>, createdAt: DateText, updatedAt: DateText)

  /** One key of the parsed document: absent or falsy, present with a value
      whose revival throws (not an array, or an element that is not an
      object), or a list of records. */
  datatype Field<T> = Missing | Malformed | Present(items: seq<T>)

  datatype Document = Document(
    projects: Field<SavedProject>,
    clients: Field<SavedClient>,
    proposals: Field<SavedProposal>,
    contracts: Field<SavedContract>,
    showcases: Field<SavedShowcase>)

  /** What `localStorage.getItem(StorageKey)` holds: nothing (null or the
      empty string), text `JSON.parse` rejects, or a parsed document. */
  datatype Stored = NoEntry | Unparseable | Saved(doc: Document)

  /** The five collections of the store. */
  datatype Collections = Collections(
    projects: seq<Project>,
    clients: seq<Client>,
    proposals: seq<Proposal>,
    contracts: seq<Contract>,
    showcases: seq<Showcase>)

  // ------------------------------------------------------------------ writing

  function OptionDate(t: Option<Instant>): Option<DateText> {
    match t
    case None => None
    case Some(v) => Some(DateToText(v))
  }

  function SaveDue(d: DueDate): string {
    match d
    case DueAt(t) => IntText(t)
    case DueText(s) => s
  }

  function SaveTask(t: Task): SavedTask {
    SavedTask(t.id, t.title, t.completed,
              match t.dueDate case None => None case Some(d) => Some(SaveDue(d)))
  }

  function SaveProject(p: Project): SavedProject {
    SavedProject(p.id, p.name, p.description, p.clientId, p.clientName, p.status,
                 DateToText(p.startDate), DateToText(p.endDate), p.budget, p.progress,
                 match p.tasks case None => None case Some(ts) => Some(Map(ts, SaveTask)),
                 DateToText(p.createdAt))
  }

  function SaveClient(c: Client): SavedClient {
    SavedClient(c.id, c.name, c.email, c.phone, c.company, c.address, c.status,
                c.totalProjects, c.totalRevenue, DateToText(c.createdAt))
  }

  function SaveProposal(p: Proposal): SavedProposal {
    SavedProposal(p.id, p.number, p.clientId, p.clientName, p.projectName, p.description,
                  p.amount, p.status, DateToText(p.validUntil), p.items, DateToText(p.createdAt))
  }

  function SaveContract(c: Contract): SavedContract {
    SavedContract(c.id, c.number, c.projectId, c.projectName, c.clientId, c.clientName,
                  c.status, c.content, OptionDate(c.signedAt), DateToText(c.createdAt))
  }

  function SaveShowcase(s: Showcase): SavedShowcase {
    SavedShowcase(s.id, s.projectId, s.title, s.introduction, s.items, s.totalAmount,
                  s.discount, s.finalAmount, s.notes, s.status, OptionDate(s.sentAt),
                  OptionDate(s.viewedAt), OptionDate(s.respondedAt),
                  DateToText(s.createdAt), DateToText(s.updatedAt))
  }

  /** `JSON.stringify({projects, clients, proposals, contracts, showcases})`. */
  function Save(c: Collections): (d: Document)
    ensures d.projects.Present? && d.clients.Present? && d.proposals.Present?
    ensures d.contracts.Present? && d.showcases.Present?
    ensures |d.projects.items| == |c.projects| && |d.clients.items| == |c.clients|
    ensures |d.proposals.items| == |c.proposals| && |d.contracts.items| == |c.contracts|
    ensures |d.showcases.items| == |c.showcases|
  {
    Document(Present(Map(c.projects, SaveProject)), Present(Map(c.clients, SaveClient)),
             Present(Map(c.proposals, SaveProposal)), Present(Map(c.contracts, SaveContract)),
             Present(Map(c.showcases, SaveShowcase)))
  }

  // ------------------------------------------------------------------ reading

  /** `x ? new Date(x) : undefined`. */
  function ReviveOption(t: Option<DateText>): Option<Instant> {
    match t
    case None => None
    case Some(s) => Some(TextToDate(s))
  }

  /** The loader spreads a task unchanged, so its due date stays text. */
  function ReviveTask(t: SavedTask): Task {
    Task(t.id, t.title, t.completed, match t.dueDate case None => None case Some(s) => Some(DueText(s)))
  }

  function ReviveProject(p: SavedProject): Project {
    Project(p.id, p.name, p.description, p.clientId, p.clientName, p.status,
            TextToDate(p.startDate), TextToDate(p.endDate), p.budget, p.progress,
            match p.tasks case None => None case Some(ts) => Some(Map(ts, ReviveTask)),
            TextToDate(p.createdAt))
  }

  function ReviveClient(c: SavedClient): Client {
    Client(c.id, c.name, c.email, c.phone, c.company, c.address, c.status,
           c.totalProjects, c.totalRevenue, TextToDate(c.createdAt))
  }

  function ReviveProposal(p: SavedProposal): Proposal {
    Proposal(p.id, p.number, p.clientId, p.clientName, p.projectName, p.description,
             p.amount, p.status, TextToDate(p.validUntil), p.items, TextToDate(p.createdAt))
  }

  function ReviveContract(c: SavedContract): Contract {
    Contract(c.id, c.number, c.projectId, c.projectName, c.clientId, c.clientName,
             c.status, c.content, ReviveOption(c.signedAt), TextToDate(c.createdAt))
  }

  function ReviveShowcase(s: SavedShowcase): Showcase {
    Showcase(s.id, s.projectId, s.title, s.introduction, s.items, s.totalAmount,
             s.discount, s.finalAmount, s.notes, s.status, ReviveOption(s.sentAt),
             ReviveOption(s.viewedAt), ReviveOption(s.respondedAt),
             TextToDate(s.createdAt), TextToDate(s.updatedAt))
  }

  /** The body of the load effect's `try`: the keys are applied in order, and
      the first one whose revival throws abandons the rest, while the keys
      already applied stay applied. */
  function LoadDocument(c: Collections, d: Document): Collections {
    if d.projects.Malformed? then c else
    var c1 := if d.projects.Present? then c.(projects := Map(d.projects.items, ReviveProject)) else c;
    if d.clients.Malformed? then c1 else
    var c2 := if d.clients.Present? then c1.(clients := Map(d.clients.items, ReviveClient)) else c1;
    if d.proposals.Malformed? then c2 else
    var c3 := if d.proposals.Present? then c2.(proposals := Map(d.proposals.items, ReviveProposal)) else c2;
    if d.contracts.Malformed? then c3 else
    var c4 := if d.contracts.Present? then c3.(contracts := Map(d.contracts.items, ReviveContract)) else c3;
    if d.showcases.Malformed? then c4 else
    if d.showcases.Present? then c4.(showcases := Map(d.showcases.items, ReviveShowcase)) else c4
  }

  /** The load effect: nothing stored, or text that does not parse, leaves
      every collection as it was. */
  function Load(c: Collections, stored: Stored): (r: Collections)
    ensures !stored.Saved? ==> r == c
  {
    match stored
    case Saved(d) => LoadDocument(c, d)
    case _ => c
  }

  // ------------------------------------------------------------- properties

  lemma DateRoundTrip(t: Instant)
    ensures TextToDate(DateToText(t)) == t
  {
  }

  /** A key absent from the document keeps that collection as it was. */
  lemma MissingKeyKeeps(c: Collections, d: Document)
    ensures d.projects.Missing? ==> LoadDocument(c, d).projects == c.projects
    ensures d.clients.Missing? ==> LoadDocument(c, d).clients == c.clients
    ensures d.proposals.Missing? ==> LoadDocument(c, d).proposals == c.proposals
    ensures d.contracts.Missing? ==> LoadDocument(c, d).contracts == c.contracts
    ensures d.showcases.Missing? ==> LoadDocument(c, d).showcases == c.showcases
  {
  }

  /** A key whose revival throws stops the load there: that collection and
      every later one keep their values, every earlier present one is
      loaded. Shown for the clients key, the second of five. */
  lemma MalformedClientsStop(c: Collections, d: Document)
    requires d.clients.Malformed?
    ensures LoadDocument(c, d).projects
            == if d.projects.Present? then Map(d.projects.items, ReviveProject) else c.projects
    ensures LoadDocument(c, d).clients == c.clients && LoadDocument(c, d).proposals == c.proposals
    ensures LoadDocument(c, d).contracts == c.contracts && LoadDocument(c, d).showcases == c.showcases
  {
  }

  /** What one key contributes when it is reached: its revived records when
      present, the previous collection when missing. */
  function ProjectsIfPresent(c: Collections, d: Document): seq<Project> {
    if d.projects.Present? then Map(d.projects.items, ReviveProject) else c.projects
  }
  function ClientsIfPresent(c: Collections, d: Document): seq<Client> {
    if d.clients.Present? then Map(d.clients.items, ReviveClient) else c.clients
  }
  function ProposalsIfPresent(c: Collections, d: Document): seq<Proposal> {
    if d.proposals.Present? then Map(d.proposals.items, ReviveProposal) else c.proposals
  }
  function ContractsIfPresent(c: Collections, d: Document): seq<Contract> {
    if d.contracts.Present? then Map(d.contracts.items, ReviveContract) else c.contracts
  }
  function ShowcasesIfPresent(c: Collections, d: Document): seq<Showcase> {
    if d.showcases.Present? then Map(d.showcases.items, ReviveShowcase) else c.showcases
  }

  /** For every key: the first key whose revival throws stops the load, so
      the keys before it are loaded and it and every later key keep their
      collections. Without a malformed key all five are loaded. */
  lemma MalformedKeyStops(c: Collections, d: Document)
    ensures d.projects.Malformed? ==> LoadDocument(c, d) == c
    ensures !d.projects.Malformed? && d.clients.Malformed? ==>
              LoadDocument(c, d) == c.(projects := ProjectsIfPresent(c, d))
    ensures !d.projects.Malformed? && !d.clients.Malformed? && d.proposals.Malformed? ==>
              LoadDocument(c, d) == c.(projects := ProjectsIfPresent(c, d), clients := ClientsIfPresent(c, d))
    ensures !d.projects.Malformed? && !d.clients.Malformed? && !d.proposals.Malformed?
            && d.contracts.Malformed? ==>
              LoadDocument(c, d) == c.(projects := ProjectsIfPresent(c, d), clients := ClientsIfPresent(c, d),
                                       proposals := ProposalsIfPresent(c, d))
    ensures !d.projects.Malformed? && !d.clients.Malformed? && !d.proposals.Malformed?
            && !d.contracts.Malformed? && d.showcases.Malformed? ==>
              LoadDocument(c, d) == c.(projects := ProjectsIfPresent(c, d), clients := ClientsIfPresent(c, d),
                                       proposals := ProposalsIfPresent(c, d), contracts := ContractsIfPresent(c, d))
    ensures !d.projects.Malformed? && !d.clients.Malformed? && !d.proposals.Malformed?
            && !d.contracts.Malformed? && !d.showcases.Malformed? ==>
              LoadDocument(c, d) == Collections(ProjectsIfPresent(c, d), ClientsIfPresent(c, d),
                                                ProposalsIfPresent(c, d), ContractsIfPresent(c, d),
                                                ShowcasesIfPresent(c, d))
  {
  }

  /** Saving a task and reading it back gives the task with its due date as
      text. */
  function AsText(d: DueDate): DueDate {
    DueText(SaveDue(d))
  }

  function NormalizeTask(t: Task): Task {
    t.(dueDate := match t.dueDate case None => None case Some(d) => Some(AsText(d)))
  }

  function NormalizeProject(p: Project): Project {
    p.(tasks := match p.tasks case None => None case Some(ts) => Some(Map(ts, NormalizeTask)))
  }

  /** The collections as a reload sees them: everything equal, except that
      task due dates have become text. */
  function Normalize(c: Collections): Collections {
    c.(projects := Map(c.projects, NormalizeProject))
  }

  lemma ProjectRoundTrip(p: Project)
    ensures ReviveProject(SaveProject(p)) == NormalizeProject(p)
  {
    if p.tasks.Some? {
      var ts := p.tasks.value;
      assert Map(Map(ts, SaveTask), ReviveTask) == Map(ts, NormalizeTask);
    }
  }

  lemma OptionRoundTrip(t: Option<Instant>)
    ensures ReviveOption(OptionDate(t)) == t
  {
  }

  /** Save then load restores every collection, whatever the collections
      held before the load; every named date comes back as the same instant
      and absent optional dates stay absent. Only task due dates change, from
      a Date to its text. */
  lemma SaveLoad(before: Collections, c: Collections)
    ensures Load(before, Saved(Save(c))) == Normalize(c)
  {
    var d := Save(c);
    forall i | 0 <= i < |c.projects| ensures ReviveProject(SaveProject(c.projects[i])) == NormalizeProject(c.projects[i]) {
      ProjectRoundTrip(c.projects[i]);
    }
    assert Map(d.projects.items, ReviveProject) == Map(c.projects, NormalizeProject);
    forall i | 0 <= i < |c.contracts| ensures ReviveContract(SaveContract(c.contracts[i])) == c.contracts[i] {
      OptionRoundTrip(c.contracts[i].signedAt);
    }
    assert Map(d.contracts.items, ReviveContract) == c.contracts;
    forall i | 0 <= i < |c.showcases| ensures ReviveShowcase(SaveShowcase(c.showcases[i])) == c.showcases[i] {
      var s := c.showcases[i];
      OptionRoundTrip(s.sentAt);
      OptionRoundTrip(s.viewedAt);
      OptionRoundTrip(s.respondedAt);
    }
    assert Map(d.showcases.items, ReviveShowcase) == c.showcases;
    assert Map(d.clients.items, ReviveClient) == c.clients;
    assert Map(d.proposals.items, ReviveProposal) == c.proposals;
  }

  predicate NoDatedTask(c: Collections) {
    forall i :: 0 <= i < |c.projects| ==> forall t :: t in c.projects[i].tasks.GetOr([]) ==> t.dueDate.None? || t.dueDate.value.DueText?
  }

  /** Collections without a Date-valued task due date come back exactly. */
  lemma SaveLoadExact(before: Collections, c: Collections)
    requires NoDatedTask(c)
    ensures Load(before, Saved(Save(c))) == c
  {
    SaveLoad(before, c);
    forall i | 0 <= i < |c.projects| ensures NormalizeProject(c.projects[i]) == c.projects[i] {
      var p := c.projects[i];
      if p.tasks.Some? {
        var ts := p.tasks.value;
        forall k | 0 <= k < |ts| ensures NormalizeTask(ts[k]) == ts[k] {
          assert ts[k] in p.tasks.GetOr([]);
        }
        assert Map(ts, NormalizeTask) == ts;
      }
    }
    assert Map(c.projects, NormalizeProject) == c.projects;
  }

  /** A reload changes nothing a later save would write: saving the reloaded
      collections writes the document that was read. */
  lemma SaveAfterReload(c: Collections)
    ensures Save(Normalize(c)) == Save(c)
  {
    forall i | 0 <= i < |c.projects| ensures SaveProject(NormalizeProject(c.projects[i])) == SaveProject(c.projects[i]) {
      var p := c.projects[i];
      if p.tasks.Some? {
        var ts := p.tasks.value;
        assert Map(Map(ts, NormalizeTask), SaveTask) == Map(ts, SaveTask);
      }
    }
    assert Map(Map(c.projects, NormalizeProject), SaveProject) == Map(c.projects, SaveProject);
  }

  /** A Date-valued due date does not survive a reload: it comes back as the
      text it was written as. */
  lemma DueDateNotRevived(t: Instant)
    ensures ReviveTask(SaveTask(Task("t", "", false, Some(DueAt(t))))).dueDate == Some(DueText(IntText(t)))
    ensures DueText(IntText(t)) != DueAt(t)
  {
  }
}
