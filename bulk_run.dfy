/**
 * The `run` command: enumerate the working days of the month and submit each one in turn,
 * counting the days that succeed and the days that fail. A failing day is logged and the loop
 * goes on with the next day.
 */
module BulkRun {
  import opened Calendar
  import opened TimeEntries
  import opened WorkingDays

  /**
   * What the outside world contributes to one day: the lunch start drawn at random and the
   * answers the remote service gives to the morning and afternoon POSTs.
   */
  datatype DayInput = DayInput(lunchStart: int, morningPost: PostOutcome, afternoonPost: PostOutcome)

  /** An error line: the date and the message of the error that was caught. */
  datatype LogLine = LogLine(date: Date, message: string)

  function SubmitDay(cfg: Config, simulate: bool, env: Date -> DayInput, date: Date): Submission {
    var input := env(date);
    CreateTimeEntry(cfg, date, simulate, input.lunchStart, input.morningPost, input.afternoonPost)
  }

  predicate DaySucceeded(cfg: Config, simulate: bool, env: Date -> DayInput, date: Date) {
    !SubmitDay(cfg, simulate, env, date).result.Failed?
  }

  /** Days among `days` whose `createTimeEntry` returned. */
  function SuccessCount(cfg: Config, simulate: bool, env: Date -> DayInput, days: seq<Date>): nat {
    if days == [] then 0
    else SuccessCount(cfg, simulate, env, days[..|days| - 1])
         + (if DaySucceeded(cfg, simulate, env, days[|days| - 1]) then 1 else 0)
  }

  /** Days among `days` whose `createTimeEntry` threw. */
  function FailedCount(cfg: Config, simulate: bool, env: Date -> DayInput, days: seq<Date>): nat {
    if days == [] then 0
    else FailedCount(cfg, simulate, env, days[..|days| - 1])
         + (if DaySucceeded(cfg, simulate, env, days[|days| - 1]) then 0 else 1)
  }

  /** Every body POSTed while processing `days`, in the order sent. */
  function PostsOf(cfg: Config, simulate: bool, env: Date -> DayInput, days: seq<Date>): seq<TimeEntry> {
    if days == [] then []
    else PostsOf(cfg, simulate, env, days[..|days| - 1]) + SubmitDay(cfg, simulate, env, days[|days| - 1]).posted
  }

  /** The error lines logged while processing `days`, in order. */
  function ErrorLog(cfg: Config, simulate: bool, env: Date -> DayInput, days: seq<Date>): seq<LogLine> {
    if days == [] then []
    else
      var d := days[|days| - 1];
      var result := SubmitDay(cfg, simulate, env, d).result;
      ErrorLog(cfg, simulate, env, days[..|days| - 1]) + (if result.Failed? then [LogLine(d, result.message)] else [])
  }

  /** Days among `days` whose morning POST would be accepted. */
  function AcceptedMornings(env: Date -> DayInput, days: seq<Date>): nat {
    if days == [] then 0
    else AcceptedMornings(env, days[..|days| - 1]) + (if env(days[|days| - 1]).morningPost.Accepted? then 1 else 0)
  }

  /** The `for (const date of workingDays)` loop with its try/catch. */
  method RunDays(cfg: Config, days: seq<Date>, simulate: bool, env: Date -> DayInput)
    returns (success: nat, failed: nat, posted: seq<TimeEntry>, errors: seq<LogLine>)
    ensures success == SuccessCount(cfg, simulate, env, days)
    ensures failed == FailedCount(cfg, simulate, env, days)
    ensures success + failed == |days|
    ensures posted == PostsOf(cfg, simulate, env, days)
    ensures errors == ErrorLog(cfg, simulate, env, days)
  {
    success, failed, posted, errors := 0, 0, [], [];
    for i := 0 to |days|
      invariant success == SuccessCount(cfg, simulate, env, days[..i])
      invariant failed == FailedCount(cfg, simulate, env, days[..i])
      invariant success + failed == i
      invariant posted == PostsOf(cfg, simulate, env, days[..i])
      invariant errors == ErrorLog(cfg, simulate, env, days[..i])
    {
      var date := days[i];
      var input := env(date);
      var submission := CreateTimeEntry(cfg, date, simulate, input.lunchStart, input.morningPost, input.afternoonPost);
      posted := posted + submission.posted;
      if submission.result.Failed? {
        failed := failed + 1;
        errors := errors + [LogLine(date, submission.result.message)];
      } else {
        success := success + 1;
      }
      assert days[..i + 1][..i] == days[..i];
    }
    assert days[..|days|] == days;
  }

  /** `run`: the working days of the month, then one submission per day. */
  method Run(cfg: Config, year: int, month: int, simulate: bool, env: Date -> DayInput)
    returns (workingDays: seq<Date>, success: nat, failed: nat, posted: seq<TimeEntry>, errors: seq<LogLine>)
    ensures workingDays == WorkingDaysOf(year, month)
    ensures success + failed == |workingDays|
    ensures success == SuccessCount(cfg, simulate, env, workingDays)
    ensures failed == FailedCount(cfg, simulate, env, workingDays)
    ensures posted == PostsOf(cfg, simulate, env, workingDays)
    ensures errors == ErrorLog(cfg, simulate, env, workingDays)
  {
    workingDays := GetWorkingDays(year, month);
    success, failed, posted, errors := RunDays(cfg, workingDays, simulate, env);
  }

  // ---------------------------------------------------------------------------
  // Properties of a run

  /** Each day adds to exactly one of the two counters. */
  lemma {:induction false} CountsCoverEveryDay(cfg: Config, simulate: bool, env: Date -> DayInput, days: seq<Date>)
    ensures SuccessCount(cfg, simulate, env, days) + FailedCount(cfg, simulate, env, days) == |days|
  {
    if days != [] {
      CountsCoverEveryDay(cfg, simulate, env, days[..|days| - 1]);
    }
  }

  /**
   * One error line per failed day: a line for date `d` with message `m` is logged exactly when
   * `d` is one of the days and its submission threw `m`.
   */
  lemma {:induction false} ErrorLogListsFailures(
    cfg: Config, simulate: bool, env: Date -> DayInput, days: seq<Date>, d: Date, m: string)
    ensures |ErrorLog(cfg, simulate, env, days)| == FailedCount(cfg, simulate, env, days)
    ensures LogLine(d, m) in ErrorLog(cfg, simulate, env, days) <==>
      d in days && SubmitDay(cfg, simulate, env, d).result == Failed(m)
  {
    if days != [] {
      var init := days[..|days| - 1];
      ErrorLogListsFailures(cfg, simulate, env, init, d, m);
      assert days == init + [days[|days| - 1]];
    }
  }

  /**
   * A failing day does not stop the run: in live mode the morning entry of every day is sent,
   * whatever happened to the days before it.
   */
  lemma {:induction false} EveryDayIsAttempted(cfg: Config, env: Date -> DayInput, days: seq<Date>, d: Date)
    requires d in days
    ensures PlanDay(cfg, d, env(d).lunchStart).morning in PostsOf(cfg, false, env, days)
  {
    var init := days[..|days| - 1];
    assert days == init + [days[|days| - 1]];
    if d in init {
      EveryDayIsAttempted(cfg, env, init, d);
    } else {
      assert SubmitDay(cfg, false, env, d).posted[0] == PlanDay(cfg, d, env(d).lunchStart).morning;
    }
  }

  /**
   * In live mode each day sends its morning entry, and its afternoon entry only when the morning
   * one was accepted.
   */
  lemma {:induction false} LivePostCount(cfg: Config, env: Date -> DayInput, days: seq<Date>)
    ensures |PostsOf(cfg, false, env, days)| == |days| + AcceptedMornings(env, days)
  {
    if days != [] {
      LivePostCount(cfg, env, days[..|days| - 1]);
    }
  }

  /** A simulated run sends nothing, logs no error and counts every day as a success. */
  lemma {:induction false} SimulatedRun(cfg: Config, env: Date -> DayInput, days: seq<Date>)
    ensures PostsOf(cfg, true, env, days) == []
    ensures ErrorLog(cfg, true, env, days) == []
    ensures SuccessCount(cfg, true, env, days) == |days|
    ensures FailedCount(cfg, true, env, days) == 0
  {
    if days != [] {
      SimulatedRun(cfg, env, days[..|days| - 1]);
    }
  }

  /** When the remote service accepts every request, no day fails. */
  lemma {:induction false} AllAcceptedRun(cfg: Config, simulate: bool, env: Date -> DayInput, days: seq<Date>)
    requires forall d :: d in days ==> env(d).morningPost.Accepted? && env(d).afternoonPost.Accepted?
    ensures FailedCount(cfg, simulate, env, days) == 0
    ensures SuccessCount(cfg, simulate, env, days) == |days|
  {
    if days != [] {
      AllAcceptedRun(cfg, simulate, env, days[..|days| - 1]);
    }
  }
}
