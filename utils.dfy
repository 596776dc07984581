/** The deterministic helpers of lib/utils.ts: task progress, relative-time
    buckets, and the status label and colour tables. */
module Utils {
  import opened Types
  import opened Lists
  import opened Text

  // ----------------------------------------------------------------- progress

  /** `Math.round(100 * c / n)` on exact rationals: floor(100c/n + 1/2). */
  function RoundedPercent(c: nat, n: nat): (r: nat)
    requires 0 < n
  {
    (200 * c + n) / (2 * n)
  }

  lemma MulLe(x: int, y: int, b: nat)
    requires x <= y
    ensures x * b <= y * b
    decreases y - x
  {
    if x < y {
      MulLe(x + 1, y, b);
      assert (x + 1) * b == x * b + b;
    }
  }

  /** `q` is `a / b` exactly when it brackets `a` between consecutive
      multiples of `b`. */
  lemma DivBracket(a: int, b: int, q: int)
    requires b > 0 && q * b <= a < (q + 1) * b
    ensures a / b == q
  {
    var d := a / b;
    assert a == d * b + a % b;
    assert (d + 1) * b == d * b + b;
    if d < q { MulLe(d + 1, q, b); }
    if q < d { MulLe(q + 1, d, b); }
  }

  lemma DivFloor(a: int, b: int)
    requires b > 0
    ensures (a / b) * b <= a < (a / b + 1) * b
  {
    var d := a / b;
    assert a == d * b + a % b;
    assert (d + 1) * b == d * b + b;
  }

  lemma DivMono(a: int, a2: int, b: int)
    requires b > 0 && a <= a2
    ensures a / b <= a2 / b
  {
    DivFloor(a, b);
    DivFloor(a2, b);
    if a2 / b < a / b { MulLe(a2 / b + 1, a / b, b); }
  }

  /** `calculateProgress`: no tasks, or an empty list, is 0 percent. */
  function Progress(tasks: Option<seq<Task>>): nat {
    if tasks.None? || |tasks.value| == 0 then 0
    else RoundedPercent(Count(tasks.value, IsCompleted), |tasks.value|)
  }

  predicate IsCompleted(t: Task) {
    t.completed
  }

  /** The percentage is the integer nearest to 100·c/n (halves round up), so
      it lies in [0, 100], is 100 exactly when every task is done and 0 when
      none is, and never drops when more tasks are done. */
  lemma RoundedPercentMeaning(c: nat, n: nat)
    requires 0 < n && c <= n
    ensures var r := RoundedPercent(c, n);
            r * (2 * n) <= 200 * c + n < (r + 1) * (2 * n)
            && 0 <= r <= 100
            && (c == n ==> r == 100) && (c == 0 ==> r == 0)
            && (c < n ==> RoundedPercent(c, n) <= RoundedPercent(c + 1, n))
  {
    var r := RoundedPercent(c, n);
    var a := 200 * c + n;
    DivFloor(a, 2 * n);
    DivBracket(200 * n + n, 2 * n, 100);
    DivMono(a, 200 * n + n, 2 * n);
    if c == 0 {
      DivBracket(a, 2 * n, 0);
    }
    if c < n {
      DivMono(a, a + 200, 2 * n);
      assert 200 * (c + 1) + n == a + 200;
    }
  }

  /** A project's progress is the share of its completed tasks, rounded to
      the nearest percent: 0 without tasks, 100 exactly when all are done
      and 0 when none is. */
  lemma ProgressMeaning(tasks: Option<seq<Task>>)
    ensures 0 <= Progress(tasks) <= 100
    ensures tasks.None? || tasks == Some([]) ==> Progress(tasks) == 0
    ensures tasks.Some? && |tasks.value| > 0 ==>
              var n := |tasks.value|;
              var r := Progress(tasks);
              r * (2 * n) <= 200 * Count(tasks.value, IsCompleted) + n < (r + 1) * (2 * n)
    ensures tasks.Some? && |tasks.value| > 0 && (forall i :: 0 <= i < |tasks.value| ==> tasks.value[i].completed) ==>
              Progress(tasks) == 100
    ensures tasks.Some? && (forall i :: 0 <= i < |tasks.value| ==> !tasks.value[i].completed) ==>
              Progress(tasks) == 0
  {
    if tasks.Some? && |tasks.value| > 0 {
      var ts := tasks.value;
      RoundedPercentMeaning(Count(ts, IsCompleted), |ts|);
      if forall i :: 0 <= i < |ts| ==> ts[i].completed {
        FilterAll(ts, IsCompleted);
      }
      if forall i :: 0 <= i < |ts| ==> !ts[i].completed {
        FilterNone(ts, IsCompleted);
      }
    }
  }

  // ------------------------------------------------------------ relative time

  const Second := 1000
  const Minute := 60 * Second
  const Hour := 60 * Minute
  const Day := 24 * Hour

  /** What `formatRelativeTime` shows; the date of an older time is rendered
      by `formatDate`, which is not part of this model. */
  datatype Relative = JustNow | MinutesAgo(minutes: int) | HoursAgo(hours: int) | DaysAgo(days: int) | Absolute(at: Instant)

  /** The chain of `Math.floor` divisions and the first bucket that fits. */
  function RelativeBucket(date: Instant, now: Instant): Relative {
    var diffSecs := (now - date) / 1000;
    var diffMins := diffSecs / 60;
    var diffHours := diffMins / 60;
    var diffDays := diffHours / 24;
    if diffSecs < 60 then JustNow
    else if diffMins < 60 then MinutesAgo(diffMins)
    else if diffHours < 24 then HoursAgo(diffHours)
    else if diffDays < 7 then DaysAgo(diffDays)
    else Absolute(date)
  }

  function RelativeText(r: Relative, formattedDate: string): string {
    match r
    case JustNow => "Az önce"
    case MinutesAgo(m) => IntText(m) + " dakika önce"
    case HoursAgo(h) => IntText(h) + " saat önce"
    case DaysAgo(d) => IntText(d) + " gün önce"
    case Absolute(_) => formattedDate
  }

  /** Flooring twice is flooring once by the product. */
  lemma NestedFloor(a: int, b: int, c: int)
    requires b > 0 && c > 0
    ensures (a / b) / c == a / (b * c)
  {
    var q := a / b;
    var q2 := q / c;
    var r0 := a % b;
    var r1 := q % c;
    assert a == q * b + r0 && 0 <= r0 < b;
    assert q == q2 * c + r1 && 0 <= r1 < c;
    Distribute(q2 * c, r1, b);
    assert (q2 * c) * b == q2 * (b * c);
    MulLe(r1, c - 1, b);
    Distribute(c, -1, b);
    Distribute(q2, 1, b * c);
    DivBracket(a, b * c, q2);
  }
  lemma Distribute(x: int, y: int, b: int)
    ensures (x + y) * b == x * b + y * b
  {
  }

  /** The buckets by the raw difference: under a minute (the future
      included) is "just now"; then whole minutes under an hour, whole hours
      under a day, whole days under a week; a week or more shows the date. */
  lemma RelativeBuckets(date: Instant, now: Instant)
    ensures var d := now - date;
            var r := RelativeBucket(date, now);
            (r == JustNow <==> d < Minute)
            && (r.MinutesAgo? <==> Minute <= d < Hour) && (r.MinutesAgo? ==> r.minutes == d / Minute)
            && (r.HoursAgo? <==> Hour <= d < Day) && (r.HoursAgo? ==> r.hours == d / Hour)
            && (r.DaysAgo? <==> Day <= d < 7 * Day) && (r.DaysAgo? ==> r.days == d / Day)
            && (r.Absolute? <==> d >= 7 * Day)
  {
    var d := now - date;
    NestedFloor(d, 1000, 60);
    NestedFloor(d, 60000, 60);
    NestedFloor(d, 3600000, 24);
    var s := d / 1000;
    var m := d / Minute;
    var h := d / Hour;
    var dd := d / Day;
    assert s < 60 <==> d < Minute by {
      if s < 60 { assert d < (s + 1) * 1000; } else { assert d >= s * 1000; }
    }
    assert m < 60 <==> d < Hour by {
      if m < 60 { assert d < (m + 1) * Minute; } else { assert d >= m * Minute; }
    }
    assert h < 24 <==> d < Day by {
      if h < 24 { assert d < (h + 1) * Hour; } else { assert d >= h * Hour; }
    }
    assert dd < 7 <==> d < 7 * Day by {
      if dd < 7 { assert d < (dd + 1) * Day; } else { assert d >= dd * Day; }
    }
  }

  // ------------------------------------------------------------ status tables

  const StatusColors: map<string, string> := map[
    "planning" := "bg-blue-100 text-blue-800",
    "in_progress" := "bg-yellow-100 text-yellow-800",
    "review" := "bg-purple-100 text-purple-800",
    "completed" := "bg-green-100 text-green-800",
    "on_hold" := "bg-gray-100 text-gray-800",
    "draft" := "bg-gray-100 text-gray-800",
    "sent" := "bg-blue-100 text-blue-800",
    "accepted" := "bg-green-100 text-green-800",
    "rejected" := "bg-red-100 text-red-800",
    "pending_signature" := "bg-yellow-100 text-yellow-800",
    "signed" := "bg-green-100 text-green-800",
    "active" := "bg-green-100 text-green-800",
    "inactive" := "bg-gray-100 text-gray-800"
  ]

  const StatusLabels: map<string, string> := map[
    "planning" := "Planlama",
    "in_progress" := "Devam Ediyor",
    "review" := "İnceleme",
    "completed" := "Tamamlandı",
    "on_hold" := "Beklemede",
    "draft" := "Taslak",
    "sent" := "Gönderildi",
    "accepted" := "Onaylandı",
    "rejected" := "Reddedildi",
    "pending_signature" := "İmza Bekliyor",
    "signed" := "İmzalandı",
    "active" := "Aktif",
    "inactive" := "Pasif"
  ]

  const DefaultColor := "bg-gray-100 text-gray-800"

  /** `colors[status] || 'bg-gray-100 text-gray-800'`. */
  function StatusColor(status: string): (r: string)
    ensures status !in StatusColors ==> r == DefaultColor
    ensures status in StatusColors ==> r == StatusColors[status]
  {
    if status in StatusColors && StatusColors[status] != "" then StatusColors[status] else DefaultColor
  }

  /** `labels[status] || status`: an unknown status is shown as it is. */
  function StatusLabel(status: string): (r: string)
    ensures status !in StatusLabels ==> r == status
    ensures status in StatusLabels ==> r == StatusLabels[status]
  {
    if status in StatusLabels && StatusLabels[status] != "" then StatusLabels[status] else status
  }

  /** Every status of every entity has a label and a colour of its own
      entry, so only text outside the enumerations falls back. */
  lemma EveryStatusListed(p: ProjectStatus, q: ProposalStatus, c: ContractStatus, k: ClientStatus)
    ensures ProjectStatusName(p) in StatusLabels && ProjectStatusName(p) in StatusColors
    ensures ProposalStatusName(q) in StatusLabels && ProposalStatusName(q) in StatusColors
    ensures ContractStatusName(c) in StatusLabels && ContractStatusName(c) in StatusColors
    ensures ClientStatusName(k) in StatusLabels && ClientStatusName(k) in StatusColors
  {
  }

  /** The Turkish labels of the project statuses. */
  lemma ProjectStatusLabels()
    ensures StatusLabel("planning") == "Planlama" && StatusLabel("in_progress") == "Devam Ediyor"
    ensures StatusLabel("review") == "İnceleme" && StatusLabel("completed") == "Tamamlandı"
    ensures StatusLabel("on_hold") == "Beklemede"
  {
  }
}
