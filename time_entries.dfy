/**
 * `createTimeEntry`: one working day split around a one-hour lunch break into a morning and
 * an afternoon time entry, and the two POST requests that submit them.
 *
 * Times are minutes since local midnight on the entry's date. The random lunch start and the
 * answers of the remote service are inputs; the JSON bodies keep only the fields that vary.
 */
module TimeEntries {
  import opened Calendar

  /** The settings collected at start-up; they do not change during a run. */
  datatype Config = Config(
    workspaceId: string,
    projectId: string,
    authToken: string,
    description: string,
    startHour: int,
    endHour: int)

  /** The description every entry is sent with; the configured description is not used. */
  const EntryDescription: string := "shiroo"

  /** Earliest and latest lunch start (11:30 and 13:00) and the lunch length, in minutes. */
  const LunchEarliest: int := 690
  const LunchLatest: int := 780
  const LunchMinutes: int := 60

  /** A lunch start `getLunchBreakTime` can yield, to the minute (rounding can reach 13:00). */
  predicate IsLunchStart(t: int) {
    LunchEarliest <= t <= LunchLatest
  }

  /** A local time of day on a calendar date, in minutes since midnight. */
  datatype Instant = Instant(date: Date, minute: int)

  /** `d.setHours(hour, minute, 0, 0)` on a copy of `date`; a minute of 60 carries into the hour. */
  function At(date: Date, hour: int, minute: int): Instant {
    Instant(date, hour * 60 + minute)
  }

  /** The fields of a request body that the model keeps; task, tags and custom fields are empty. */
  datatype TimeEntry = TimeEntry(
    billable: bool,
    description: string,
    projectId: string,
    start: Instant,
    end: Instant)

  datatype DayPlan = DayPlan(morning: TimeEntry, afternoon: TimeEntry)

  function Duration(e: TimeEntry): int {
    e.end.minute - e.start.minute
  }

  /** Whether minute `t` of the day lies inside entry `e` (start inclusive, end exclusive). */
  predicate Covers(e: TimeEntry, t: int) {
    e.start.minute <= t < e.end.minute
  }

  /**
   * The two bodies `createTimeEntry` builds for `date`: the morning from `startHour:00` to the
   * lunch start, the afternoon from one hour after the lunch start to `endHour:00`.
   */
  function PlanDay(cfg: Config, date: Date, lunchStart: int): (p: DayPlan)
    ensures p.morning.start == Instant(date, cfg.startHour * 60)
    ensures p.morning.end == Instant(date, lunchStart)
    ensures p.afternoon.start == Instant(date, lunchStart + LunchMinutes)
    ensures p.afternoon.end == Instant(date, cfg.endHour * 60)
  {
    var lunchEnd := lunchStart + LunchMinutes;
    var morningStart := At(date, cfg.startHour, 0);
    var morningEnd := At(date, lunchStart / 60, lunchStart % 60);
    var afternoonStart := At(date, lunchEnd / 60, lunchEnd % 60);
    var afternoonEnd := At(date, cfg.endHour, 0);
    DayPlan(
      TimeEntry(true, EntryDescription, cfg.projectId, morningStart, morningEnd),
      TimeEntry(true, EntryDescription, cfg.projectId, afternoonStart, afternoonEnd))
  }

  // ---------------------------------------------------------------------------
  // Properties of the split

  /**
   * Both entries are billable, carry the fixed description and the configured project, and
   * lie on the requested date; the morning starts at `startHour:00` and the afternoon ends at
   * `endHour:00`; the morning ends at the lunch start and the afternoon starts exactly one
   * hour later.
   */
  lemma PlanShape(cfg: Config, date: Date, lunchStart: int)
    ensures var p := PlanDay(cfg, date, lunchStart);
      && p.morning.billable && p.afternoon.billable
      && p.morning.description == EntryDescription == p.afternoon.description
      && p.morning.projectId == cfg.projectId == p.afternoon.projectId
      && p.morning.start.date == p.morning.end.date == date
      && p.afternoon.start.date == p.afternoon.end.date == date
      && p.morning.start.minute == cfg.startHour * 60
      && p.afternoon.end.minute == cfg.endHour * 60
      && p.morning.end.minute == lunchStart
      && p.afternoon.start.minute == p.morning.end.minute + LunchMinutes
  {
  }

  /** With a lunch start from `getLunchBreakTime`, the break starts in [11:30, 13:00] and ends in [12:30, 14:00]. */
  lemma LunchWindow(cfg: Config, date: Date, lunchStart: int)
    requires IsLunchStart(lunchStart)
    ensures var p := PlanDay(cfg, date, lunchStart);
      && LunchEarliest <= p.morning.end.minute <= LunchLatest
      && LunchEarliest + LunchMinutes <= p.afternoon.start.minute <= LunchLatest + LunchMinutes
  {
  }

  /**
   * Nothing orders the four times: each entry is non-empty exactly when the configured hour
   * lies on the right side of the lunch break.
   */
  lemma EntriesNonEmptyIff(cfg: Config, date: Date, lunchStart: int)
    ensures var p := PlanDay(cfg, date, lunchStart);
      && (Duration(p.morning) > 0 <==> cfg.startHour * 60 < lunchStart)
      && (Duration(p.afternoon) > 0 <==> lunchStart + LunchMinutes < cfg.endHour * 60)
  {
  }

  /** A start hour of 13 with a lunch at 11:30 yields a morning entry that ends before it starts. */
  lemma MorningMayBeInverted()
    ensures var p := PlanDay(Config("w", "p", "t", "", 13, 17), Date(2024, 6, 3), LunchEarliest);
      p.morning.end.minute < p.morning.start.minute
  {
  }

  /**
   * When the lunch break lies inside the working hours, every minute from `startHour:00` up to
   * `endHour:00` is in exactly one of the morning, the lunch break and the afternoon, and no
   * other minute is in any of them; the two entries together last one hour less than the day.
   */
  lemma PlanPartitionsWorkingHours(cfg: Config, date: Date, lunchStart: int, t: int)
    requires cfg.startHour * 60 <= lunchStart && lunchStart + LunchMinutes <= cfg.endHour * 60
    ensures var p := PlanDay(cfg, date, lunchStart);
      var inLunch := p.morning.end.minute <= t < p.afternoon.start.minute;
      && (cfg.startHour * 60 <= t < cfg.endHour * 60 <==> Covers(p.morning, t) || inLunch || Covers(p.afternoon, t))
      && !(Covers(p.morning, t) && inLunch)
      && !(Covers(p.morning, t) && Covers(p.afternoon, t))
      && !(inLunch && Covers(p.afternoon, t))
      && Duration(p.morning) + Duration(p.afternoon) == (cfg.endHour - cfg.startHour) * 60 - LunchMinutes
  {
  }

  // ---------------------------------------------------------------------------
  // Submission

  /** The answer to one POST: a 2xx status, another status with its text, or a failed fetch. */
  datatype PostOutcome = Accepted | HttpError(statusText: string) | NetworkError(message: string)

  /** How `createTimeEntry` ends: the simulated bodies, both entries created, or a thrown error. */
  datatype DayResult = Simulated(plan: DayPlan) | Created | Failed(message: string)

  /** The bodies whose POST was attempted, in order, and how the call ended. */
  datatype Submission = Submission(posted: seq<TimeEntry>, result: DayResult)

  /** The error a rejected POST raises. */
  function PostError(which: string, outcome: PostOutcome): string
    requires !outcome.Accepted?
  {
    match outcome
    case HttpError(statusText) => "Failed to create " + which + " time entry: " + statusText
    case NetworkError(message) => message
  }

  /**
   * `createTimeEntry(config, date, simulate)` with the lunch start drawn as `lunchStart` and
   * the remote service answering `morningPost` and, if it is sent, `afternoonPost`.
   */
  function CreateTimeEntry(
    cfg: Config, date: Date, simulate: bool,
    lunchStart: int, morningPost: PostOutcome, afternoonPost: PostOutcome): (s: Submission)
    ensures simulate ==> s.posted == [] && s.result == Simulated(PlanDay(cfg, date, lunchStart))
    ensures !simulate ==> 1 <= |s.posted| <= 2 && s.posted[0] == PlanDay(cfg, date, lunchStart).morning
    ensures |s.posted| == 2 <==> !simulate && morningPost.Accepted?
    ensures |s.posted| == 2 ==> s.posted[1] == PlanDay(cfg, date, lunchStart).afternoon
    ensures s.result.Created? <==> !simulate && morningPost.Accepted? && afternoonPost.Accepted?
    ensures s.result.Failed? <==> !simulate && !(morningPost.Accepted? && afternoonPost.Accepted?)
    ensures !simulate && !morningPost.Accepted? ==> s.result == Failed(PostError("morning", morningPost))
    ensures !simulate && morningPost.Accepted? && !afternoonPost.Accepted? ==>
      s.result == Failed(PostError("afternoon", afternoonPost))
  {
    var plan := PlanDay(cfg, date, lunchStart);
    if simulate then
      Submission([], Simulated(plan))
    else if !morningPost.Accepted? then
      Submission([plan.morning], Failed(PostError("morning", morningPost)))
    else if !afternoonPost.Accepted? then
      Submission([plan.morning, plan.afternoon], Failed(PostError("afternoon", afternoonPost)))
    else
      Submission([plan.morning, plan.afternoon], Created)
  }

  /** Simulate mode shows exactly the bodies live mode sends for the same lunch start. */
  lemma SimulateShowsWhatLiveSends(
    cfg: Config, date: Date, lunchStart: int, morningPost: PostOutcome, afternoonPost: PostOutcome)
    ensures var shown := CreateTimeEntry(cfg, date, true, lunchStart, morningPost, afternoonPost).result.plan;
      var sent := CreateTimeEntry(cfg, date, false, lunchStart, morningPost, afternoonPost).posted;
      && sent[0] == shown.morning
      && (morningPost.Accepted? ==> sent == [shown.morning, shown.afternoon])
  {
  }
}
