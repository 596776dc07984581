/** The event list that components/admin/calendar/project-calendar.tsx hands
    to the calendar widget, and where a click on an event leads. Every
    project becomes a range event, followed by one event per dated task; the
    list is built by pushing onto a local array per project. */
module ProjectCalendar {
  import opened Types
  import opened Lists

  /** `new Date(...)` of a stored value: a time, or text whose parse is left
      to the widget. */
  datatype EventStart = StartAt(at: Instant) | StartText(text: string)

  datatype EventKind =
    | ProjectEvent(status: ProjectStatus, clientName: Option<string>, progress: int)
    | TaskEvent(projectId: string, completed: bool)

  datatype Event = Event(id: string, title: string, start: EventStart, end: Option<Instant>, color: string, kind: EventKind)

  const StatusColors: map<string, string> := map[
    "planning" := "#3b82f6",
    "in_progress" := "#f59e0b",
    "review" := "#8b5cf6",
    "completed" := "#10b981",
    "on_hold" := "#6b7280"
  ]

  const Gray := "#6b7280"
  const Green := "#10b981"
  const Red := "#ef4444"

  /** `statusColors[project.status] || '#6b7280'`. */
  function StatusColor(status: string): (r: string)
    ensures status !in StatusColors ==> r == Gray
    ensures status in StatusColors ==> r == StatusColors[status]
  {
    if status in StatusColors && StatusColors[status] != "" then StatusColors[status] else Gray
  }

  /** `if (task.dueDate)`: present and not the empty text. */
  predicate Dated(t: Task) {
    t.dueDate.Some? && t.dueDate.value != DueText("")
  }

  function StartOf(d: DueDate): EventStart {
    match d
    case DueAt(at) => StartAt(at)
    case DueText(text) => StartText(text)
  }

  /** A project's range event. */
  function RangeEvent(p: Project): Event {
    Event(p.id, p.name, StartAt(p.startDate), Some(p.endDate), StatusColor(ProjectStatusName(p.status)),
          ProjectEvent(p.status, p.clientName, p.progress))
  }

  /** A dated task's deadline event. */
  function TaskEventOf(p: Project, t: Task): Event
    requires Dated(t)
  {
    Event(p.id + "-task-" + t.id, "📋 " + t.title, StartOf(t.dueDate.value), None,
          if t.completed then Green else Red, TaskEvent(p.id, t.completed))
  }

  /** The task events of a prefix of a project's tasks, in task order. */
  function TaskEvents(p: Project, ts: seq<Task>): seq<Event> {
    if ts == [] then []
    else
      var last := ts[|ts| - 1];
      TaskEvents(p, ts[..|ts| - 1]) + (if Dated(last) then [TaskEventOf(p, last)] else [])
  }

  /** The local `events` array of one project. */
  function ProjectEvents(p: Project): seq<Event> {
    [RangeEvent(p)] + (if p.tasks.Some? then TaskEvents(p, p.tasks.value) else [])
  }

  /** `projects.flatMap(...)`. */
  function EventsOf(ps: seq<Project>): seq<Event> {
    if ps == [] then [] else EventsOf(ps[..|ps| - 1]) + ProjectEvents(ps[|ps| - 1])
  }

  /** The `useMemo` body: the outer `flatMap` and the inner `forEach` with
      its `push`es. */
  method BuildEvents(ps: seq<Project>) returns (events: seq<Event>)
    ensures events == EventsOf(ps)
  {
    events := [];
    var i := 0;
    while i < |ps|
      invariant 0 <= i <= |ps|
      invariant events == EventsOf(ps[..i])
    {
      var p := ps[i];
      var local := [RangeEvent(p)];
      if p.tasks.Some? {
        var ts := p.tasks.value;
        var j := 0;
        while j < |ts|
          invariant 0 <= j <= |ts|
          invariant local == [RangeEvent(p)] + TaskEvents(p, ts[..j])
        {
          assert ts[..j + 1][..j] == ts[..j];
          if Dated(ts[j]) {
            local := local + [TaskEventOf(p, ts[j])];
          }
          j := j + 1;
        }
        assert ts[..j] == ts;
      }
      assert ps[..i + 1][..i] == ps[..i];
      events := events + local;
      i := i + 1;
    }
    assert ps[..i] == ps;
  }

  /** `handleEventClick`: a task event with a project id opens that project;
      any other event reports its own id. */
  function ClickTarget(e: Event): string {
    if e.kind.TaskEvent? && e.kind.projectId != "" then e.kind.projectId else e.id
  }

  // ------------------------------------------------------------------ lemmas

  predicate IsProjectEvent(e: Event) {
    e.kind.ProjectEvent?
  }

  /** The number of events a project's tasks add. */
  function DatedTasks(p: Project): int {
    if p.tasks.Some? then Count(p.tasks.value, Dated) else 0
  }

  lemma {:induction false} TaskEventsCount(p: Project, ts: seq<Task>)
    ensures |TaskEvents(p, ts)| == Count(ts, Dated)
    ensures Count(TaskEvents(p, ts), IsProjectEvent) == 0
  {
    if ts != [] {
      var init := ts[..|ts| - 1];
      var last := ts[|ts| - 1];
      assert ts == init + [last];
      TaskEventsCount(p, init);
      FilterAppend(init, [last], Dated);
      FilterAppend(TaskEvents(p, init), if Dated(last) then [TaskEventOf(p, last)] else [], IsProjectEvent);
    }
  }

  /** One range event per project and one event per dated task: the event
      count is the number of projects plus the number of dated tasks, and
      exactly the number of projects of them are project events. */
  lemma {:induction false} EventCount(ps: seq<Project>)
    ensures |EventsOf(ps)| == |ps| + Sum(ps, DatedTasks)
    ensures Count(EventsOf(ps), IsProjectEvent) == |ps|
  {
    if ps != [] {
      var init := ps[..|ps| - 1];
      var last := ps[|ps| - 1];
      assert ps == init + [last];
      EventCount(init);
      SumAppend(init, [last], DatedTasks);
      var tail := if last.tasks.Some? then TaskEvents(last, last.tasks.value) else [];
      if last.tasks.Some? {
        TaskEventsCount(last, last.tasks.value);
      }
      FilterAppend(EventsOf(init), ProjectEvents(last), IsProjectEvent);
      FilterAppend([RangeEvent(last)], tail, IsProjectEvent);
    }
  }

  /** The events of a longer list are those of its parts, in order: each
      project's events stay together and follow the project order. */
  lemma {:induction false} EventsOfAppend(a: seq<Project>, b: seq<Project>)
    ensures EventsOf(a + b) == EventsOf(a) + EventsOf(b)
    decreases |b|
  {
    if b != [] {
      var bi := b[..|b| - 1];
      assert a + b == (a + bi) + [b[|b| - 1]];
      assert (a + b)[..|a + b| - 1] == a + bi;
      EventsOfAppend(a, bi);
    } else {
      assert a + b == a;
    }
  }

  /** What a project's task events are: one per dated task, with the
      `{projectId}-task-{taskId}` id, the project id to open, and green
      exactly for a completed task. */
  lemma {:induction false} TaskEventsMembers(p: Project, ts: seq<Task>, e: Event)
    ensures e in TaskEvents(p, ts) <==> exists t :: t in ts && Dated(t) && e == TaskEventOf(p, t)
    ensures e in TaskEvents(p, ts) ==>
              e.kind == TaskEvent(p.id, e.kind.completed)
              && (e.color == Green <==> e.kind.completed) && (e.color == Red <==> !e.kind.completed)
  {
    if ts != [] {
      var init := ts[..|ts| - 1];
      var last := ts[|ts| - 1];
      assert ts == init + [last];
      TaskEventsMembers(p, init, e);
      if e in TaskEvents(p, ts) && e !in TaskEvents(p, init) {
        assert Dated(last) && e == TaskEventOf(p, last);
      }
      if exists t :: t in ts && Dated(t) && e == TaskEventOf(p, t) {
        var t :| t in ts && Dated(t) && e == TaskEventOf(p, t);
        if t != last {
          assert t in init;
        }
      }
    }
  }

  /** Every event comes from one of the projects, in whose event group it
      sits. */
  lemma {:induction false} EventsMembers(ps: seq<Project>, e: Event)
    ensures e in EventsOf(ps) <==> exists p :: p in ps && e in ProjectEvents(p)
  {
    if ps != [] {
      var init := ps[..|ps| - 1];
      var last := ps[|ps| - 1];
      assert ps == init + [last];
      EventsMembers(init, e);
      if exists p :: p in ps && e in ProjectEvents(p) {
        var p :| p in ps && e in ProjectEvents(p);
        if p != last {
          assert p in init;
        }
      }
    }
  }

  /** Clicking any event of a project, its range or one of its task
      deadlines, opens that project (when its id is not empty). */
  lemma ClickOpensProject(p: Project, e: Event)
    requires e in ProjectEvents(p) && p.id != ""
    ensures ClickTarget(e) == p.id
  {
    if e != RangeEvent(p) {
      TaskEventsMembers(p, p.tasks.value, e);
    }
  }

  /** So every event on the calendar leads to one of the listed projects. */
  lemma {:induction false} ClickLeadsToListedProject(ps: seq<Project>, e: Event)
    requires e in EventsOf(ps)
    requires forall k :: 0 <= k < |ps| ==> ps[k].id != ""
    ensures exists p :: p in ps && ClickTarget(e) == p.id
  {
    EventsMembers(ps, e);
    var p :| p in ps && e in ProjectEvents(p);
    ClickOpensProject(p, e);
  }
}
