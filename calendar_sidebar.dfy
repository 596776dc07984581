/** The side panel of the calendar page
    (components/admin/calendar/calendar-sidebar.tsx): the status legend with
    per-status project counts, and the deadlines of the coming week with a
    days-left badge. `now` is the one clock reading the component takes. */
module CalendarSidebar {
  import opened Types
  import opened Lists
  import opened Text

  const Day := 24 * 60 * 60 * 1000
  const Week := 7 * Day

  // --------------------------------------------------------------- deadlines

  /** A project is due this week when its end lies in [now, now + 7 days]
      and it is not completed. */
  function DueWithinWeek(now: Instant): Project -> bool {
    (p: Project) => now <= p.endDate <= now + Week && p.status != Completed
  }

  function EndDate(p: Project): int {
    p.endDate
  }

  /** `upcomingDeadlines`: the projects due this week by ascending end. */
  function Upcoming(ps: seq<Project>, now: Instant): (r: seq<Project>)
    ensures SortedBy(r, EndDate)
    ensures multiset(r) == multiset(Filter(ps, DueWithinWeek(now)))
    ensures forall p :: p in r <==> p in ps && now <= p.endDate <= now + Week && p.status != Completed
  {
    var due := Filter(ps, DueWithinWeek(now));
    var r := SortByKey(due, EndDate);
    forall p ensures p in r <==> p in ps && DueWithinWeek(now)(p) {
      assert p in r <==> p in multiset(r);
      assert p in due <==> p in multiset(due);
      FilterMember(ps, DueWithinWeek(now), p);
    }
    r
  }

  /** Deadlines on the same end date keep the order of the project list,
      since `sort` is stable. */
  lemma {:induction false} UpcomingTiesKeepOrder(ps: seq<Project>, now: Instant, end: int)
    ensures Filter(Upcoming(ps, now), KeyIs(EndDate, end))
            == Filter(Filter(ps, DueWithinWeek(now)), KeyIs(EndDate, end))
  {
    SortByKeyStable(Filter(ps, DueWithinWeek(now)), EndDate, end);
  }

  /** `Math.ceil((end - now) / day)`, written with the floor of the negated
      difference. */
  function DaysLeft(end: Instant, now: Instant): int {
    -((now - end) / Day)
  }

  /** The days left are the ceiling of the remaining time in days; for a
      deadline this week they lie in [0, 7], are 0 only for a deadline at
      this very millisecond, and are at most 2 exactly when no more than two
      days remain. */
  lemma DaysLeftMeaning(end: Instant, now: Instant)
    ensures var d := DaysLeft(end, now);
            (d - 1) * Day < end - now <= d * Day
    ensures now <= end <= now + Week ==>
              var d := DaysLeft(end, now);
              0 <= d <= 7 && (d == 0 <==> end == now) && (UrgentBadge(d) <==> end - now <= 2 * Day)
  {
    var q := (now - end) / Day;
    assert now - end == q * Day + (now - end) % Day;
    var d := DaysLeft(end, now);
    assert d == -q;
    if now <= end <= now + Week {
      assert -Week <= now - end <= 0;
      assert q * Day <= now - end < (q + 1) * Day;
    }
  }

  /** The badge text: 'Bugün', 'Yarın' or `{n} gün`. */
  function DeadlineLabel(daysLeft: int): string {
    if daysLeft == 0 then "Bugün"
    else if daysLeft == 1 then "Yarın"
    else IntText(daysLeft) + " gün"
  }

  /** The red badge marks two days or fewer. */
  predicate UrgentBadge(daysLeft: int) {
    daysLeft <= 2
  }

  /** The three label forms never coincide: the number form is reached only
      for other counts and spells the count. */
  lemma DeadlineLabelCases(daysLeft: int)
    ensures DeadlineLabel(daysLeft) == "Bugün" <==> daysLeft == 0
    ensures DeadlineLabel(daysLeft) == "Yarın" <==> daysLeft == 1
    ensures daysLeft != 0 && daysLeft != 1 ==>
              DeadlineLabel(daysLeft)[..|IntText(daysLeft)|] == IntText(daysLeft)
  {
    if daysLeft != 0 && daysLeft != 1 {
      var t := IntText(daysLeft);
      var l := t + " gün";
      assert l[..|t|] == t;
      assert l[|t|] == ' ';
      assert l != "Bugün" by {
        if |l| == |"Bugün"| {
          assert |t| == 1;
          assert l[1] == ' ' && "Bugün"[1] == 'u';
        }
      }
      assert l != "Yarın" by {
        if |l| == |"Yarın"| {
          assert |t| == 1;
          assert l[1] == ' ' && "Yarın"[1] == 'a';
        }
      }
    }
  }

  // ------------------------------------------------------------------ legend

  /** The `reduce` accumulator: one more for the key. */
  function Bump(acc: map<string, nat>, key: string): map<string, nat> {
    acc[key := (if key in acc then acc[key] else 0) + 1]
  }

  /** `projectsByStatus`: the fold over the projects, oldest first. */
  function Tally(ps: seq<Project>): map<string, nat> {
    if ps == [] then map[]
    else Bump(Tally(ps[..|ps| - 1]), ProjectStatusName(ps[|ps| - 1].status))
  }

  /** `projectsByStatus[status] || 0`. */
  function LegendCount(tally: map<string, nat>, status: string): nat {
    if status in tally then tally[status] else 0
  }

  function StatusNamed(status: string): Project -> bool {
    (p: Project) => ProjectStatusName(p.status) == status
  }

  /** The legend shows, for every status text, how many projects have it; a
      status no project has shows 0. */
  lemma {:induction false} TallyCounts(ps: seq<Project>, status: string)
    ensures LegendCount(Tally(ps), status) == Count(ps, StatusNamed(status))
  {
    if ps != [] {
      var init := ps[..|ps| - 1];
      var last := ps[|ps| - 1];
      assert ps == init + [last];
      TallyCounts(init, status);
      FilterAppend(init, [last], StatusNamed(status));
    }
  }

  /** The sum over the five legend rows. */
  function LegendTotal(tally: map<string, nat>): nat {
    LegendCount(tally, "planning") + LegendCount(tally, "in_progress") + LegendCount(tally, "review")
    + LegendCount(tally, "completed") + LegendCount(tally, "on_hold")
  }

  /** The five legend counts add up to the number of projects. */
  lemma {:induction false} LegendSumsToAll(ps: seq<Project>)
    ensures LegendTotal(Tally(ps)) == |ps|
  {
    if ps != [] {
      var init := ps[..|ps| - 1];
      var key := ProjectStatusName(ps[|ps| - 1].status);
      LegendSumsToAll(init);
      BumpTotal(Tally(init), key);
    }
  }

  /** Counting one more project of a known status adds one to the total. */
  lemma BumpTotal(tally: map<string, nat>, key: string)
    requires key in {"planning", "in_progress", "review", "completed", "on_hold"}
    ensures LegendTotal(Bump(tally, key)) == LegendTotal(tally) + 1
  {
  }
}
