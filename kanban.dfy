/** The kanban board of components/admin/kanban/kanban-board.tsx: a local
    copy of the project list shown in five status columns, with the dnd-kit
    drag handlers. Dragging over a column or a card of another status moves
    the project there at once; dropping on a card of the same status
    reorders the list with `arrayMove`. The board never writes back to the
    store. */
module Kanban {
  import opened Types
  import opened Lists
  import Utils

  datatype Column = Column(id: ProjectStatus, title: string, color: string)

  const Columns: seq<Column> := [
    Column(Planning, "Planlama", "#3b82f6"),
    Column(InProgress, "Devam Ediyor", "#f59e0b"),
    Column(Review, "İnceleme", "#8b5cf6"),
    Column(Completed, "Tamamlandı", "#10b981"),
    Column(OnHold, "Beklemede", "#6b7280")
  ]

  /** `columns.find(c => c.id === overId)`. */
  function ColumnFor(overId: string): Option<Column> {
    Find(Columns, (c: Column) => ProjectStatusName(c.id) == overId)
  }

  /** The column of a status sits at the status's place in the list. */
  function ColumnIndex(st: ProjectStatus): (k: nat)
    ensures k < |Columns| && Columns[k].id == st
  {
    match st
    case Planning => 0
    case InProgress => 1
    case Review => 2
    case Completed => 3
    case OnHold => 4
  }

  /** No two columns share a status. */
  lemma ColumnsDistinct()
    ensures forall i, j :: 0 <= i < j < |Columns| ==> Columns[i].id != Columns[j].id
  {
  }

  /** Each column is titled with its status's label. */
  lemma ColumnTitlesAreStatusLabels()
    ensures forall k :: 0 <= k < |Columns| ==> Utils.StatusLabel(ProjectStatusName(Columns[k].id)) == Columns[k].title
  {
  }

  /** A status's own spelling finds its column. */
  lemma ColumnForStatus(st: ProjectStatus)
    ensures ColumnFor(ProjectStatusName(st)).Some? && ColumnFor(ProjectStatusName(st)).value.id == st
  {
    var p := (c: Column) => ProjectStatusName(c.id) == ProjectStatusName(st);
    assert p(Columns[ColumnIndex(st)]);
    var c := ColumnFor(ProjectStatusName(st)).value;
    assert ProjectStatusName(c.id) == ProjectStatusName(st);
    ProjectStatusNameInjective(c.id, st);
  }

  /** Only the spelling of a status finds a column. */
  lemma ColumnForOnlyStatus(overId: string)
    ensures ColumnFor(overId).Some? <==> exists s: ProjectStatus :: ProjectStatusName(s) == overId
  {
    if ColumnFor(overId).Some? {
      var c := ColumnFor(overId).value;
      assert ProjectStatusName(c.id) == overId;
    }
    var p := (c: Column) => ProjectStatusName(c.id) == overId;
    forall s: ProjectStatus ensures p(Columns[ColumnIndex(s)]) == (ProjectStatusName(s) == overId) {
    }
  }

  /** `getProjectsByStatus`: one column's cards in list order. */
  function ByStatus(ps: seq<Project>, st: ProjectStatus): (r: seq<Project>)
    ensures forall p :: p in r <==> p in ps && p.status == st
    ensures IsSubsequence(r, ps)
    ensures forall p :: multiset(r)[p] == if p.status == st then multiset(ps)[p] else 0
  {
    var keep := (p: Project) => p.status == st;
    forall p ensures p in Filter(ps, keep) <==> p in ps && keep(p) {
      FilterMember(ps, keep, p);
    }
    forall p ensures multiset(Filter(ps, keep))[p] == if keep(p) then multiset(ps)[p] else 0 {
      FilterMultiplicity(ps, keep, p);
    }
    FilterIsSubsequence(ps, keep);
    Filter(ps, keep)
  }

  /** The five columns together hold every project exactly once. */
  lemma {:induction false} ColumnsPartition(ps: seq<Project>)
    ensures |ByStatus(ps, Planning)| + |ByStatus(ps, InProgress)| + |ByStatus(ps, Review)|
            + |ByStatus(ps, Completed)| + |ByStatus(ps, OnHold)| == |ps|
  {
    if ps != [] {
      ColumnsPartition(ps[1..]);
      ByStatusCons(ps, Planning);
      ByStatusCons(ps, InProgress);
      ByStatusCons(ps, Review);
      ByStatusCons(ps, Completed);
      ByStatusCons(ps, OnHold);
    }
  }

  /** A column of a non-empty list: the head when it has the status, then the
      column of the rest. */
  lemma ByStatusCons(ps: seq<Project>, st: ProjectStatus)
    requires ps != []
    ensures |ByStatus(ps, st)| == (if ps[0].status == st then 1 else 0) + |ByStatus(ps[1..], st)|
  {
  }

  /** All projects with an id: `find` and `findIndex`. */
  function WithId(id: string): Project -> bool {
    (p: Project) => p.id == id
  }

  /** Give every project with the id the status. */
  function SetStatus(ps: seq<Project>, id: string, st: ProjectStatus): seq<Project> {
    MapWhere(ps, WithId(id), (p: Project) => p.(status := st))
  }

  /** `handleDragOver`: `over` is the id under the cursor, if any. */
  function DragOverResult(ps: seq<Project>, activeId: string, over: Option<string>): seq<Project> {
    if over.None? then ps
    else
      match Find(ps, WithId(activeId))
      case None => ps
      case Some(a) => OverTarget(ps, activeId, a.status, over.value)
  }

  /** A column whose status the project already has falls through to the
      card check, as the source does. */
  function OverTarget(ps: seq<Project>, activeId: string, current: ProjectStatus, overId: string): seq<Project> {
    var col := ColumnFor(overId);
    if col.Some? && current != col.value.id then SetStatus(ps, activeId, col.value.id)
    else OverCard(ps, activeId, current, overId)
  }

  /** Over a card, the project takes the card's status when it differs. */
  function OverCard(ps: seq<Project>, activeId: string, current: ProjectStatus, overId: string): seq<Project> {
    match Find(ps, WithId(overId))
    case Some(o) => if current != o.status then SetStatus(ps, activeId, o.status) else ps
    case None => ps
  }

  /** `handleDragEnd`: only a drop on another card of the same status
      reorders; the project moves to that card's index. */
  function DragEndResult(ps: seq<Project>, activeId: string, over: Option<string>): seq<Project> {
    if over.None? || activeId == over.value then ps
    else
      var a := Find(ps, WithId(activeId));
      var o := Find(ps, WithId(over.value));
      if a.Some? && o.Some? && a.value.status == o.value.status then
        ArrayMove(ps, FindIndex(ps, WithId(activeId)), FindIndex(ps, WithId(over.value)))
      else ps
  }

  /** The board's state: its own copy of the projects and the card being
      dragged. */
  class Board {
    var projects: seq<Project>
    var activeProject: Option<Project>

    constructor(initialProjects: seq<Project>)
      ensures projects == initialProjects && activeProject == None
    {
      projects := initialProjects;
      activeProject := None;
    }

    function ProjectsByStatus(st: ProjectStatus): seq<Project>
      reads this
    {
      ByStatus(projects, st)
    }

    /** A drag of an unknown id keeps the previous active card. */
    method DragStart(activeId: string)
      modifies this`activeProject
      ensures var f := Find(projects, WithId(activeId));
              activeProject == if f.Some? then f else old(activeProject)
    {
      var f := Find(projects, WithId(activeId));
      if f.Some? {
        activeProject := f;
      }
    }

    method DragOver(activeId: string, over: Option<string>)
      modifies this`projects
      ensures projects == DragOverResult(old(projects), activeId, over)
    {
      projects := DragOverResult(projects, activeId, over);
    }

    /** The active card is cleared first, whatever the drop. */
    method DragEnd(activeId: string, over: Option<string>)
      modifies this
      ensures activeProject == None
      ensures projects == DragEndResult(old(projects), activeId, over)
    {
      activeProject := None;
      projects := DragEndResult(projects, activeId, over);
    }
  }

  // ------------------------------------------------------------------ lemmas

  /** Without a target, or for an id not on the board, drag-over changes
      nothing. */
  lemma DragOverIgnored(ps: seq<Project>, activeId: string, over: Option<string>)
    requires over.None? || forall i :: 0 <= i < |ps| ==> ps[i].id != activeId
    ensures DragOverResult(ps, activeId, over) == ps
  {
    if over.Some? {
      assert Find(ps, WithId(activeId)).None?;
    }
  }

  /** Drag-over only ever changes the status of the dragged project: the
      ids, their order and every other field stay. */
  lemma DragOverOnlyStatus(ps: seq<Project>, activeId: string, over: Option<string>)
    ensures var r := DragOverResult(ps, activeId, over);
            |r| == |ps|
            && forall i :: 0 <= i < |ps| ==>
                 r[i] == ps[i].(status := r[i].status) && (ps[i].id != activeId ==> r[i] == ps[i])
  {
  }

  /** Setting the status of the projects with an id, one by one. */
  lemma SetStatusPointwise(ps: seq<Project>, id: string, st: ProjectStatus)
    ensures var r := SetStatus(ps, id, st);
            |r| == |ps| && forall i :: 0 <= i < |ps| ==> r[i] == if ps[i].id == id then ps[i].(status := st) else ps[i]
  {
    var r := SetStatus(ps, id, st);
    forall i | 0 <= i < |ps| ensures r[i] == if ps[i].id == id then ps[i].(status := st) else ps[i] {
      assert WithId(id)(ps[i]) == (ps[i].id == id);
    }
  }

  /** The first project with an id is the one `find` returns. */
  lemma FindFirst(ps: seq<Project>, a: nat)
    requires a < |ps| && forall k :: 0 <= k < a ==> ps[k].id != ps[a].id
    ensures FindIndex(ps, WithId(ps[a].id)) == a
    ensures Find(ps, WithId(ps[a].id)) == Some(ps[a])
  {
    var p := WithId(ps[a].id);
    assert p(ps[a]);
    assert forall k :: 0 <= k < a ==> !p(ps[k]);
  }

  /** Over a column of another status, the dragged project (first listed at
      index `a`) takes that column's status. */
  lemma DragOverColumn(ps: seq<Project>, a: nat, st: ProjectStatus)
    requires a < |ps| && forall k :: 0 <= k < a ==> ps[k].id != ps[a].id
    requires ps[a].status != st
    ensures var r := DragOverResult(ps, ps[a].id, Some(ProjectStatusName(st)));
            |r| == |ps|
            && forall i :: 0 <= i < |ps| ==> r[i] == if ps[i].id == ps[a].id then ps[i].(status := st) else ps[i]
  {
    FindFirst(ps, a);
    ColumnForStatus(st);
    var id := ps[a].id;
    assert DragOverResult(ps, id, Some(ProjectStatusName(st))) == OverTarget(ps, id, ps[a].status, ProjectStatusName(st));
    assert OverTarget(ps, id, ps[a].status, ProjectStatusName(st)) == SetStatus(ps, id, st);
    SetStatusPointwise(ps, id, st);
  }

  /** The id of a card names no column. */
  lemma CardIsNoColumn(overId: string)
    requires forall s: ProjectStatus :: ProjectStatusName(s) != overId
    ensures ColumnFor(overId).None?
  {
    ColumnForOnlyStatus(overId);
  }

  /** Over a card (first listed at `o`) of another status whose id names no
      column, the dragged project (first listed at `a`) takes that card's
      status. */
  lemma DragOverCard(ps: seq<Project>, a: nat, o: nat)
    requires a < |ps| && forall k :: 0 <= k < a ==> ps[k].id != ps[a].id
    requires o < |ps| && forall k :: 0 <= k < o ==> ps[k].id != ps[o].id
    requires forall s: ProjectStatus :: ProjectStatusName(s) != ps[o].id
    requires ps[a].status != ps[o].status
    ensures var r := DragOverResult(ps, ps[a].id, Some(ps[o].id));
            |r| == |ps|
            && forall i :: 0 <= i < |ps| ==> r[i] == if ps[i].id == ps[a].id then ps[i].(status := ps[o].status) else ps[i]
  {
    FindFirst(ps, a);
    FindFirst(ps, o);
    CardIsNoColumn(ps[o].id);
    var id, oid := ps[a].id, ps[o].id;
    assert DragOverResult(ps, id, Some(oid)) == OverTarget(ps, id, ps[a].status, oid);
    assert OverTarget(ps, id, ps[a].status, oid) == OverCard(ps, id, ps[a].status, oid);
    assert OverCard(ps, id, ps[a].status, oid) == SetStatus(ps, id, ps[o].status);
    SetStatusPointwise(ps, id, ps[o].status);
  }

  /** Dropping on another card of the same status is a permutation that puts
      the dragged project at that card's old index; taking it out again
      leaves the other projects in their old order. */
  lemma DragEndReorders(ps: seq<Project>, i: nat, j: nat)
    requires i < |ps| && j < |ps| && ps[i].id != ps[j].id && ps[i].status == ps[j].status
    requires forall k :: 0 <= k < i ==> ps[k].id != ps[i].id
    requires forall k :: 0 <= k < j ==> ps[k].id != ps[j].id
    ensures var r := DragEndResult(ps, ps[i].id, Some(ps[j].id));
            r == ArrayMove(ps, i, j) && r[j] == ps[i]
            && multiset(r) == multiset(ps) && RemoveAt(r, j) == RemoveAt(ps, i)
  {
    assert WithId(ps[i].id)(ps[i]);
    assert WithId(ps[j].id)(ps[j]);
  }

  /** Every drop other than on a different card of the same status leaves
      the list as it was. */
  lemma DragEndOtherwiseUnchanged(ps: seq<Project>, activeId: string, over: Option<string>)
    ensures DragEndResult(ps, activeId, over) != ps ==>
              over.Some? && activeId != over.value
              && (exists i :: 0 <= i < |ps| && ps[i].id == activeId)
              && (exists j :: 0 <= j < |ps| && ps[j].id == over.value)
              && Find(ps, WithId(activeId)).value.status == Find(ps, WithId(over.value)).value.status
  {
    if over.Some? && activeId != over.value {
      var a := Find(ps, WithId(activeId));
      var o := Find(ps, WithId(over.value));
      if a.Some? && o.Some? {
        assert WithId(activeId)(ps[FindIndex(ps, WithId(activeId))]);
        assert WithId(over.value)(ps[FindIndex(ps, WithId(over.value))]);
      }
    }
  }
}
