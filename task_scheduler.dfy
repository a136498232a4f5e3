/** The task scheduler (`TaskScheduler`): a running flag, the latest
    analysis, the list of scheduled jobs and an append-only history of task
    records, with the daily analysis and e-mail tasks that write to it and
    the queries over it. Clock readings, the analyzer's result, the
    analysis loaded from disk and the outcome of each e-mail send are
    inputs. */
module TaskScheduler {
  import opened Common
  import opened Lists
  import opened Calendar
  import MarketAnalyzer

  // ---------------------------------------------------------------------
  // Configuration and records

  /** `SCHEDULE_CONFIG`: analysis at 16:00 and e-mail at 16:30 (minutes of
      the day), on weekdays only, with the e-mail sent right after the
      analysis. */
  const AnalysisMinute: nat := 16 * 60
  const EmailMinute: nat := 16 * 60 + 30
  const WeekdaysOnly: bool := true
  const ImmediateEmail: bool := true

  datatype TaskType = DailyAnalysisTask | ImmediateEmailTask | SendEmailTask

  datatype Status = Success | Failed

  /** A clock reading as the records write it (`%Y-%m-%d %H:%M:%S`): a day
      number and the second of that day. */
  datatype Timestamp = Timestamp(day: int, second: nat)

  function Seconds(t: Timestamp): int {
    t.day * 86400 + t.second
  }

  /** `(end - start).total_seconds()`. */
  function Duration(start: Timestamp, end: Timestamp): real {
    (Seconds(end) - Seconds(start)) as real
  }

  /** One entry of `task_history`. Keys a record does not have are `None`
      (`email_sent` is false when absent). */
  datatype TaskRecord = TaskRecord(
    taskType: TaskType,
    start: Timestamp,
    end: Timestamp,
    duration: real,
    status: Status,
    stocksAnalyzed: Option<nat>,
    stocksSelected: Option<nat>,
    emailSent: bool,
    errorMessage: Option<string>)

  /** The record `_record_task_failure` appends: start and end are both the
      current time, the duration is 0. */
  function FailureRecord(t: TaskType, message: string, now: Timestamp): TaskRecord {
    TaskRecord(t, now, now, 0.0, Failed, None, None, false, Some(message))
  }

  /** The record of a successful analysis. */
  function AnalysisRecord(r: MarketAnalyzer.AnalysisResult, start: Timestamp, end: Timestamp): TaskRecord {
    TaskRecord(DailyAnalysisTask, start, end, Duration(start, end), Success,
               Some(r.totalAnalyzed), Some(|r.selected|), false, None)
  }

  /** What the analyzer's run ended with: a result, an empty result, or
      an exception with its message. */
  datatype AnalysisRun = Produced(result: MarketAnalyzer.AnalysisResult) | Empty | Crashed(message: string)

  /** What an e-mail send ended with: sent, refused by the sender, or an
      exception with its message. */
  datatype SendOutcome = Sent | Refused | Raised(message: string)

  /** The record an e-mail task appends: a failure when there is no
      analysis to send ("没有可发送的分析结果"), when the sender refuses
      ("邮件发送失败") or raises (its message); otherwise a success. */
  function EmailRecord(t: TaskType, hasAnalysis: bool, outcome: SendOutcome, start: Timestamp, end: Timestamp)
    : TaskRecord
  {
    if !hasAnalysis then FailureRecord(t, "没有可发送的分析结果", end)
    else
      match outcome
      case Sent => TaskRecord(t, start, end, Duration(start, end), Success, None, None, true, None)
      case Refused => FailureRecord(t, "邮件发送失败", end)
      case Raised(m) => FailureRecord(t, m, end)
  }

  /** What every record of the history satisfies: a record fails exactly
      when it carries an error message, and then it took no time; only a
      successful e-mail task marks an e-mail as sent; only a successful
      analysis carries stock counts. */
  predicate WellFormed(r: TaskRecord) {
    (r.status == Failed <==> r.errorMessage.Some?)
    && (r.status == Failed ==> r.duration == 0.0 && r.start == r.end)
    && (r.emailSent <==> r.status == Success && r.taskType != DailyAnalysisTask)
    && (r.stocksAnalyzed.Some? <==> r.status == Success && r.taskType == DailyAnalysisTask)
    && (r.stocksSelected.Some? <==> r.stocksAnalyzed.Some?)
  }

  /** The records an operation appends are well formed, and an e-mail
      record is a success exactly when there was an analysis to send and
      the sender sent it. */
  lemma RecordsWellFormed(t: TaskType, message: string, now: Timestamp, r: MarketAnalyzer.AnalysisResult,
                          start: Timestamp, end: Timestamp)
    ensures WellFormed(FailureRecord(t, message, now))
    ensures WellFormed(AnalysisRecord(r, start, end))
  {
  }

  lemma EmailRecordWellFormed(t: TaskType, hasAnalysis: bool, outcome: SendOutcome, start: Timestamp, end: Timestamp)
    requires t != DailyAnalysisTask
    ensures WellFormed(EmailRecord(t, hasAnalysis, outcome, start, end))
    ensures EmailRecord(t, hasAnalysis, outcome, start, end).status == Success <==> hasAnalysis && outcome == Sent
    ensures EmailRecord(t, hasAnalysis, outcome, start, end).emailSent <==> hasAnalysis && outcome == Sent
  {
  }

  /** `is_trading_day`: a weekday (holidays are not considered). */
  function IsTradingDay(day: int): (b: bool)
    ensures b <==> IsWeekday(day)
  {
    Weekday(day) < 5
  }

  /** The number of trading days among the `n` days from `day` on. */
  function TradingDaysIn(day: int, n: nat): (c: nat)
    ensures c <= n
  {
    if n == 0 then 0 else TradingDaysIn(day, n - 1) + (if IsTradingDay(day + n - 1) then 1 else 0)
  }

  /** Any seven consecutive days hold exactly five trading days. */
  lemma WeekHasFiveTradingDays(day: int)
    ensures TradingDaysIn(day, 7) == 5
  {
    NextWeekday(day);
    NextWeekday(day + 1);
    NextWeekday(day + 2);
    NextWeekday(day + 3);
    NextWeekday(day + 4);
    NextWeekday(day + 5);
    var c := TradingDaysIn(day, 1);
    assert TradingDaysIn(day, 2) == c + (if IsTradingDay(day + 1) then 1 else 0);
    assert TradingDaysIn(day, 3) == TradingDaysIn(day, 2) + (if IsTradingDay(day + 2) then 1 else 0);
    assert TradingDaysIn(day, 4) == TradingDaysIn(day, 3) + (if IsTradingDay(day + 3) then 1 else 0);
    assert TradingDaysIn(day, 5) == TradingDaysIn(day, 4) + (if IsTradingDay(day + 4) then 1 else 0);
    assert TradingDaysIn(day, 6) == TradingDaysIn(day, 5) + (if IsTradingDay(day + 5) then 1 else 0);
    assert TradingDaysIn(day, 7) == TradingDaysIn(day, 6) + (if IsTradingDay(day + 6) then 1 else 0);
  }

  /** A successful immediate e-mail recorded on the day. */
  predicate EmailedOn(h: seq<TaskRecord>, day: int) {
    exists i :: 0 <= i < |h| && h[i].taskType == ImmediateEmailTask && h[i].start.day == day
                && h[i].status == Success
  }

  /** A failure record never counts as an e-mail sent, and a successful
      immediate e-mail started on the day does. */
  lemma EmailedOnAppend(h: seq<TaskRecord>, day: int, r: TaskRecord)
    ensures r.status == Failed ==> (EmailedOn(h + [r], day) <==> EmailedOn(h, day))
    ensures r.taskType == ImmediateEmailTask && r.status == Success && r.start.day == day ==> EmailedOn(h + [r], day)
  {
    var h' := h + [r];
    assert h'[|h|] == r;
    if EmailedOn(h, day) {
      var i :| 0 <= i < |h| && h[i].taskType == ImmediateEmailTask && h[i].start.day == day && h[i].status == Success;
      assert h'[i] == h[i];
    }
    if r.status == Failed && EmailedOn(h', day) {
      var i :| 0 <= i < |h'| && h'[i].taskType == ImmediateEmailTask && h'[i].start.day == day && h'[i].status == Success;
      assert i < |h| && h[i] == h'[i];
    }
  }

  // ---------------------------------------------------------------------
  // Jobs

  datatype JobTask = RunAnalysis | BackupEmail | DailyEmail

  /** A weekly job of the `schedule` library: a weekday, a minute of the
      day and the task. */
  datatype Job = Job(weekday: nat, minute: nat, task: JobTask)

  /** The jobs `setup_schedule` registers: the analysis job for each day
      from Monday to Friday, then the e-mail job for each of those days. */
  function ScheduleJobs(): seq<Job> {
    var email := if ImmediateEmail then BackupEmail else DailyEmail;
    seq(5, d requires 0 <= d < 5 => Job(d, AnalysisMinute, RunAnalysis))
    + seq(5, d requires 0 <= d < 5 => Job(d, EmailMinute, email))
  }

  /** The schedule runs the analysis at 16:00 and the e-mail job at 16:30
      on every weekday and on no other day; with e-mails sent right after
      the analysis, the 16:30 job is the backup e-mail. */
  lemma ScheduleJobsFacts()
    ensures |ScheduleJobs()| == 10
    ensures forall i :: 0 <= i < |ScheduleJobs()| ==> ScheduleJobs()[i].weekday < 5
    ensures forall d :: 0 <= d < 5 ==>
              Job(d, AnalysisMinute, RunAnalysis) in ScheduleJobs() && Job(d, EmailMinute, BackupEmail) in ScheduleJobs()
    ensures forall i :: 0 <= i < |ScheduleJobs()| ==>
              ScheduleJobs()[i].task in {RunAnalysis, BackupEmail}
              && (ScheduleJobs()[i].task == RunAnalysis <==> ScheduleJobs()[i].minute == AnalysisMinute)
  {
    var jobs := ScheduleJobs();
    forall d | 0 <= d < 5
      ensures Job(d, AnalysisMinute, RunAnalysis) in jobs && Job(d, EmailMinute, BackupEmail) in jobs
    {
      assert jobs[d] == Job(d, AnalysisMinute, RunAnalysis);
      assert jobs[5 + d] == Job(d, EmailMinute, BackupEmail);
    }
  }

  // ---------------------------------------------------------------------
  // Queries

  /** `s[start:]` with Python's reading of a negative start. */
  function SliceFrom<T>(s: seq<T>, start: int): seq<T> {
    if start >= 0 then (if start <= |s| then s[start..] else [])
    else if -start <= |s| then s[|s| + start..]
    else s
  }

  /** `get_task_history(limit)` on a history: the last `limit` records for
      a positive limit (all of them when there are fewer), the whole history
      for 0 (`[-0:]` is `[0:]`), and the history without its first
      `-limit` records for a negative limit. Always a suffix of the
      history, in order. */
  function HistoryTail(h: seq<TaskRecord>, limit: int): (r: seq<TaskRecord>)
    ensures |r| <= |h| && r == h[|h| - |r|..]
    ensures limit == 0 ==> r == h
    ensures limit > 0 ==> |r| == (if limit < |h| then limit else |h|)
    ensures limit < 0 ==> |r| == (if -limit < |h| then |h| + limit else 0)
  {
    if h == [] then [] else SliceFrom(h, -limit)
  }

  function CountOf(h: seq<TaskRecord>, t: TaskType): (n: nat)
    ensures n <= |h|
  {
    if h == [] then 0 else CountOf(h[..|h| - 1], t) + (if h[|h| - 1].taskType == t then 1 else 0)
  }

  function SuccessesOf(h: seq<TaskRecord>, t: TaskType): (n: nat)
    ensures n <= CountOf(h, t)
  {
    if h == [] then 0
    else SuccessesOf(h[..|h| - 1], t) + (if h[|h| - 1].taskType == t && h[|h| - 1].status == Success then 1 else 0)
  }

  function DurationOf(h: seq<TaskRecord>, t: TaskType): real {
    if h == [] then 0.0 else DurationOf(h[..|h| - 1], t) + (if h[|h| - 1].taskType == t then h[|h| - 1].duration else 0.0)
  }

  /** The analysis and e-mail counts of `get_performance_summary`. */
  datatype PerfSummary = PerfSummary(
    totalTasks: nat,
    analysisTotal: nat,
    analysisSuccess: nat,
    analysisRate: real,
    avgDuration: real,
    emailTotal: nat,
    emailSuccess: nat,
    emailRate: real)

  /** `success / total * 100`, 0 without tasks. */
  function Rate(success: nat, total: nat): (r: real)
    requires success <= total
    ensures 0.0 <= r <= 100.0
    ensures total == 0 ==> r == 0.0
    ensures r == 100.0 <==> total > 0 && success == total
  {
    if total == 0 then 0.0
    else
      assert success as real / total as real * total as real == success as real;
      success as real / total as real * 100.0
  }

  lemma {:induction false} CountsBounded(h: seq<TaskRecord>)
    ensures CountOf(h, DailyAnalysisTask) + CountOf(h, SendEmailTask) <= |h|
  {
    if h != [] {
      CountsBounded(h[..|h| - 1]);
    }
  }

  /** `get_performance_summary` on a history: nothing for an empty
      history; the e-mail figures count only `send_email` tasks, not the
      immediate e-mails. */
  function PerformanceOf(h: seq<TaskRecord>): (r: Option<PerfSummary>)
    ensures r.None? <==> h == []
    ensures r.Some? ==>
              var m := r.value;
              m.totalTasks == |h|
              && m.analysisTotal == CountOf(h, DailyAnalysisTask) && m.emailTotal == CountOf(h, SendEmailTask)
              && m.analysisTotal + m.emailTotal <= m.totalTasks
              && m.analysisSuccess <= m.analysisTotal && m.emailSuccess <= m.emailTotal
              && 0.0 <= m.analysisRate <= 100.0 && 0.0 <= m.emailRate <= 100.0
              && (m.analysisTotal == 0 ==> m.analysisRate == 0.0 && m.avgDuration == 0.0)
              && (m.emailTotal == 0 ==> m.emailRate == 0.0)
  {
    if h == [] then None
    else
      var a, e := CountOf(h, DailyAnalysisTask), CountOf(h, SendEmailTask);
      var sa, se := SuccessesOf(h, DailyAnalysisTask), SuccessesOf(h, SendEmailTask);
      CountsBounded(h);
      Some(PerfSummary(|h|, a, sa, Rate(sa, a), if a > 0 then DurationOf(h, DailyAnalysisTask) / a as real else 0.0,
                       e, se, Rate(se, e)))
  }

  /** A recorded failure adds one task of its type to the counts and no
      success. */
  lemma FailureAddsNoSuccess(h: seq<TaskRecord>, t: TaskType, message: string, now: Timestamp)
    ensures var h' := h + [FailureRecord(t, message, now)];
            var m := PerformanceOf(h').value;
            m.totalTasks == |h| + 1
            && m.analysisTotal == CountOf(h, DailyAnalysisTask) + (if t == DailyAnalysisTask then 1 else 0)
            && m.emailTotal == CountOf(h, SendEmailTask) + (if t == SendEmailTask then 1 else 0)
            && m.analysisSuccess == SuccessesOf(h, DailyAnalysisTask)
            && m.emailSuccess == SuccessesOf(h, SendEmailTask)
  {
    var h' := h + [FailureRecord(t, message, now)];
    assert h'[..|h'| - 1] == h;
  }

  function StartedAfter(cutoff: Timestamp): TaskRecord -> bool {
    (r: TaskRecord) => Seconds(r.start) > Seconds(cutoff)
  }

  /** Cleaning up keeps exactly the records started after the cutoff, in
      their order, and cleaning up again with the same cutoff changes
      nothing. */
  lemma CleanupKeepsRecent(h: seq<TaskRecord>, cutoff: Timestamp)
    ensures forall r :: r in Filter(h, StartedAfter(cutoff)) <==> r in h && Seconds(r.start) > Seconds(cutoff)
    ensures Filter(Filter(h, StartedAfter(cutoff)), StartedAfter(cutoff)) == Filter(h, StartedAfter(cutoff))
  {
    FilterMembers(h, StartedAfter(cutoff));
    FilterAllPass(Filter(h, StartedAfter(cutoff)), StartedAfter(cutoff));
  }

  // ---------------------------------------------------------------------
  // The scheduler

  class Scheduler {
    var isRunning: bool
    var latestAnalysis: Option<MarketAnalyzer.AnalysisResult>
    var taskHistory: seq<TaskRecord>
    /** The jobs registered with the `schedule` library. */
    var jobs: seq<Job>

    predicate Valid()
      reads this
    {
      forall i :: 0 <= i < |taskHistory| ==> WellFormed(taskHistory[i])
    }

    constructor()
      ensures Valid()
      ensures !isRunning && latestAnalysis.None? && taskHistory == [] && jobs == []
    {
      isRunning := false;
      latestAnalysis := None;
      taskHistory := [];
      jobs := [];
    }

    /** `_record_task_failure`: one failed record is appended; nothing
        else changes. */
    method RecordTaskFailure(t: TaskType, message: string, now: Timestamp)
      requires Valid()
      modifies this
      ensures Valid()
      ensures taskHistory == old(taskHistory) + [FailureRecord(t, message, now)]
      ensures isRunning == old(isRunning) && latestAnalysis == old(latestAnalysis) && jobs == old(jobs)
    {
      taskHistory := taskHistory + [FailureRecord(t, message, now)];
    }

    /** `send_analysis_email_immediate`: one `immediate_email` record,
        a success only when there is an analysis and the sender sent it. */
    method SendAnalysisEmailImmediate(outcome: SendOutcome, start: Timestamp, end: Timestamp)
      requires Valid()
      modifies this
      ensures Valid()
      ensures taskHistory == old(taskHistory) + [EmailRecord(ImmediateEmailTask, old(latestAnalysis).Some?, outcome, start, end)]
      ensures isRunning == old(isRunning) && latestAnalysis == old(latestAnalysis) && jobs == old(jobs)
    {
      if latestAnalysis.Some? {
        match outcome
        case Sent =>
          taskHistory := taskHistory + [TaskRecord(ImmediateEmailTask, start, end, Duration(start, end), Success,
                                                   None, None, true, None)];
        case Refused =>
          RecordTaskFailure(ImmediateEmailTask, "邮件发送失败", end);
        case Raised(m) =>
          RecordTaskFailure(ImmediateEmailTask, m, end);
      } else {
        RecordTaskFailure(ImmediateEmailTask, "没有可发送的分析结果", end);
      }
    }

    /** `run_daily_analysis` on `day`: nothing on a non-trading day; a
        failure record when the analyzer returns an empty result or raises
        (with the exception's message); otherwise the result becomes the
        latest analysis, a success record is appended, and the immediate
        e-mail appends its own record. */
    method RunDailyAnalysis(day: int, run: AnalysisRun, start: Timestamp, end: Timestamp,
                            outcome: SendOutcome, mailStart: Timestamp, mailEnd: Timestamp)
      requires Valid()
      modifies this
      ensures Valid()
      ensures !IsTradingDay(day) && WeekdaysOnly ==>
                taskHistory == old(taskHistory) && latestAnalysis == old(latestAnalysis)
      ensures IsTradingDay(day) && run.Empty? ==>
                taskHistory == old(taskHistory) + [FailureRecord(DailyAnalysisTask, "分析任务返回空结果", end)]
                && latestAnalysis == old(latestAnalysis)
      ensures IsTradingDay(day) && run.Crashed? ==>
                taskHistory == old(taskHistory) + [FailureRecord(DailyAnalysisTask, run.message, end)]
                && latestAnalysis == old(latestAnalysis)
      ensures IsTradingDay(day) && run.Produced? ==>
                latestAnalysis == Some(run.result)
                && taskHistory == old(taskHistory) + [AnalysisRecord(run.result, start, end)]
                                  + (if ImmediateEmail then [EmailRecord(ImmediateEmailTask, true, outcome, mailStart, mailEnd)] else [])
      ensures isRunning == old(isRunning) && jobs == old(jobs)
    {
      if !IsTradingDay(day) && WeekdaysOnly {
        return;
      }
      match run
      case Produced(result) =>
        latestAnalysis := Some(result);
        RecordsWellFormed(DailyAnalysisTask, "", end, result, start, end);
        taskHistory := taskHistory + [AnalysisRecord(result, start, end)];
        if ImmediateEmail {
          SendAnalysisEmailImmediate(outcome, mailStart, mailEnd);
        }
      case Empty =>
        RecordTaskFailure(DailyAnalysisTask, "分析任务返回空结果", end);
      case Crashed(m) =>
        RecordTaskFailure(DailyAnalysisTask, m, end);
    }

    /** `send_daily_email` on `day`: nothing on a non-trading day;
        otherwise the analysis loaded from disk fills in a missing latest
        analysis, and one `send_email` record is appended. */
    method SendDailyEmail(day: int, loaded: Option<MarketAnalyzer.AnalysisResult>, outcome: SendOutcome,
                          start: Timestamp, end: Timestamp)
      requires Valid()
      modifies this
      ensures Valid()
      ensures !IsTradingDay(day) && WeekdaysOnly ==>
                taskHistory == old(taskHistory) && latestAnalysis == old(latestAnalysis)
      ensures IsTradingDay(day) ==>
                latestAnalysis == (if old(latestAnalysis).Some? then old(latestAnalysis) else loaded)
                && taskHistory == old(taskHistory) + [EmailRecord(SendEmailTask, latestAnalysis.Some?, outcome, start, end)]
      ensures isRunning == old(isRunning) && jobs == old(jobs)
    {
      if !IsTradingDay(day) && WeekdaysOnly {
        return;
      }
      if latestAnalysis.None? {
        latestAnalysis := loaded;
      }
      EmailRecordWellFormed(SendEmailTask, latestAnalysis.Some?, outcome, start, end);
      taskHistory := taskHistory + [EmailRecord(SendEmailTask, latestAnalysis.Some?, outcome, start, end)];
    }

    /** `send_backup_email` on `day`: the daily e-mail is sent exactly when
        the day is a trading day and no immediate e-mail succeeded on that
        day; otherwise nothing changes. */
    method SendBackupEmail(day: int, loaded: Option<MarketAnalyzer.AnalysisResult>, outcome: SendOutcome,
                           start: Timestamp, end: Timestamp)
      requires Valid()
      modifies this
      ensures Valid()
      ensures !(IsTradingDay(day) && !EmailedOn(old(taskHistory), day)) ==>
                taskHistory == old(taskHistory) && latestAnalysis == old(latestAnalysis)
      ensures IsTradingDay(day) && !EmailedOn(old(taskHistory), day) ==>
                latestAnalysis == (if old(latestAnalysis).Some? then old(latestAnalysis) else loaded)
                && taskHistory == old(taskHistory) + [EmailRecord(SendEmailTask, latestAnalysis.Some?, outcome, start, end)]
      ensures isRunning == old(isRunning) && jobs == old(jobs)
    {
      if !IsTradingDay(day) && WeekdaysOnly {
        return;
      }
      if EmailedOn(taskHistory, day) {
        return;
      }
      SendDailyEmail(day, loaded, outcome, start, end);
    }

    /** `start`: nothing when already running; otherwise the jobs are
        registered and the scheduler runs. */
    method Start()
      requires Valid()
      modifies this
      ensures Valid()
      ensures old(isRunning) ==> jobs == old(jobs)
      ensures !old(isRunning) ==> jobs == old(jobs) + ScheduleJobs()
      ensures isRunning
      ensures taskHistory == old(taskHistory) && latestAnalysis == old(latestAnalysis)
    {
      if isRunning {
        return;
      }
      jobs := jobs + ScheduleJobs();
      isRunning := true;
    }

    /** `stop`: the scheduler stops and every job is cleared. */
    method Stop()
      requires Valid()
      modifies this
      ensures Valid()
      ensures !isRunning && jobs == []
      ensures taskHistory == old(taskHistory) && latestAnalysis == old(latestAnalysis)
    {
      isRunning := false;
      jobs := [];
    }

    /** `get_task_history(limit)`. */
    function GetTaskHistory(limit: int): seq<TaskRecord>
      reads this
    {
      HistoryTail(taskHistory, limit)
    }

    /** `get_performance_summary()`. */
    function GetPerformanceSummary(): Option<PerfSummary>
      reads this
    {
      PerformanceOf(taskHistory)
    }

    /** `cleanup_old_logs(days)` at `now`: the history keeps the records
        started after `now` minus `days` days, in order. */
    method CleanupOldLogs(now: Timestamp, days: int)
      requires Valid()
      modifies this
      ensures Valid()
      ensures taskHistory == Filter(old(taskHistory), StartedAfter(Timestamp(now.day - days, now.second)))
      ensures isRunning == old(isRunning) && latestAnalysis == old(latestAnalysis) && jobs == old(jobs)
    {
      var cutoff := Timestamp(now.day - days, now.second);
      FilterMembers(taskHistory, StartedAfter(cutoff));
      taskHistory := Filter(taskHistory, StartedAfter(cutoff));
      assert forall i :: 0 <= i < |taskHistory| ==> taskHistory[i] in old(taskHistory);
    }
  }

  /** After a successful analysis whose immediate e-mail was sent on the
      same day, the backup e-mail of that day finds it and sends nothing. */
  lemma ImmediateSuccessSuppressesBackup(h: seq<TaskRecord>, day: int, r: MarketAnalyzer.AnalysisResult,
                                         start: Timestamp, end: Timestamp, mailStart: Timestamp, mailEnd: Timestamp)
    requires mailStart.day == day
    ensures EmailedOn(h + [AnalysisRecord(r, start, end)] + [EmailRecord(ImmediateEmailTask, true, Sent, mailStart, mailEnd)], day)
  {
    EmailedOnAppend(h + [AnalysisRecord(r, start, end)], day, EmailRecord(ImmediateEmailTask, true, Sent, mailStart, mailEnd));
  }
}
