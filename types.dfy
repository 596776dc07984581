/** Entities of the agency-operations data layer (lib/types.ts).

    Points in time are integers: milliseconds since the Unix epoch, as a
    JavaScript Date holds them. Monetary amounts and counts are integers.
    An optional TypeScript field (`clientName?: string`) is an Option. */
module Types {

  datatype Option<+T> = None | Some(value: T) {
    function GetOr(default: T): T {
      match this
      case Some(v) => v
      case None => default
    }
  }

  /** A Date value, in milliseconds since the epoch. */
  type Instant = int

  // ---------------------------------------------------------------- clients

  datatype ClientStatus = Active | Inactive

  datatype Client = Client(
    id: string,
    name: string,
    email: string,
    phone: string,
    company: string,
    address: Option<string>,
    status: ClientStatus,
    totalProjects: int,
    totalRevenue: int,
    createdAt: Instant)

  // --------------------------------------------------------------- projects

  datatype ProjectStatus = Planning | InProgress | Review | Completed | OnHold

  /** A task's due date. A freshly created task holds a Date (`DueAt`); after
      a reload from storage it holds the stored text, because the loader does
      not revive this field (`DueText`). */
  datatype DueDate = DueAt(at: Instant) | DueText(text: string)

  datatype Task = Task(id: string, title: string, completed: bool, dueDate: Option<DueDate>)

  datatype Project = Project(
    id: string,
    name: string,
    description: string,
    clientId: string,
    clientName: Option<string>,
    status: ProjectStatus,
    startDate: Instant,
    endDate: Instant,
    budget: int,
    progress: int,
    tasks: Option<seq<Task>>,
    createdAt: Instant)

  // -------------------------------------------------------------- proposals

  datatype ProposalStatus = Draft | Sent | Accepted | Rejected

  datatype ProposalItem = ProposalItem(
    id: string,
    description: string,
    quantity: int,
    unitPrice: int,
    total: int)

  datatype Proposal = Proposal(
    id: string,
    number: string,
    clientId: string,
    clientName: Option<string>,
    projectName: string,
    description: Option<string>,
    amount: int,
    status: ProposalStatus,
    validUntil: Instant,
    items: Option<seq<ProposalItem>>,
    createdAt: Instant)

  // -------------------------------------------------------------- contracts

  datatype ContractStatus = Draft | PendingSignature | Signed

  datatype Contract = Contract(
    id: string,
    number: string,
    projectId: string,
    projectName: Option<string>,
    clientId: string,
    clientName: Option<string>,
    status: ContractStatus,
    content: Option<string>,
    signedAt: Option<Instant>,
    createdAt: Instant)

  // ------------------------------------------------------------ client notes

  datatype NoteType = Meeting | Call | Email

  datatype ClientNote = ClientNote(id: string, clientId: string, date: Instant, content: string, kind: NoteType)

  // -------------------------------------------------------------- showcases

  datatype ShowcaseStatus = Draft | Sent | Viewed | Accepted | Rejected

  datatype ItemCategory = Feature | Service | Support | Other

  datatype ShowcaseItem = ShowcaseItem(
    id: string,
    name: string,
    description: string,
    quantity: int,
    unitPrice: int,
    category: ItemCategory)

  datatype Showcase = Showcase(
    id: string,
    projectId: string,
    title: string,
    introduction: string,
    items: seq<ShowcaseItem>,
    totalAmount: int,
    discount: Option<int>,
    finalAmount: int,
    notes: Option<string>,
    status: ShowcaseStatus,
    sentAt: Option<Instant>,
    viewedAt: Option<Instant>,
    respondedAt: Option<Instant>,
    createdAt: Instant,
    updatedAt: Instant)

  // ------------------------------------------- status names as the source spells them

  function ProjectStatusName(s: ProjectStatus): string {
    match s
    case Planning => "planning"
    case InProgress => "in_progress"
    case Review => "review"
    case Completed => "completed"
    case OnHold => "on_hold"
  }

  function ClientStatusName(s: ClientStatus): string {
    match s
    case Active => "active"
    case Inactive => "inactive"
  }

  function ProposalStatusName(s: ProposalStatus): string {
    match s
    case Draft => "draft"
    case Sent => "sent"
    case Accepted => "accepted"
    case Rejected => "rejected"
  }

  function ContractStatusName(s: ContractStatus): string {
    match s
    case Draft => "draft"
    case PendingSignature => "pending_signature"
    case Signed => "signed"
  }

  /** The five project statuses in the order the type declares them. */
  const AllProjectStatuses: seq<ProjectStatus> := [Planning, InProgress, Review, Completed, OnHold]

  /** The string spelling of a project status identifies it. */
  lemma ProjectStatusNameInjective(a: ProjectStatus, b: ProjectStatus)
    ensures ProjectStatusName(a) == ProjectStatusName(b) <==> a == b
  {
  }
}
