/**
 * The scheduler (src/services/scheduler.service.ts): it registers a cron task
 * that runs the daily pipeline on every tick, stops it, reports whether it is
 * running, and runs the pipeline on demand.
 *
 * The cron library is represented by what the scheduler sees of it: its
 * expression check, given as a function fixed at construction, and the task
 * handles it returns, objects whose status is scheduled until stopped. Timed
 * firing is not modelled; a tick is a call of `Tick`.
 */
module Scheduler {
  import opened Wrappers
  import App
  import Trends

  /** The scheduler's settings, fixed at construction. */
  datatype SchedulerConfig = SchedulerConfig(cronExpression: string, timezone: Option<string>, enabled: bool)

  /** A time, in milliseconds since the epoch. */
  type Instant = int

  /** The status a task handle reports. */
  datatype TaskStatus = Scheduled | Stopped

  /** A task handle of the cron library: what it fires on, and whether it still fires. */
  class ScheduledTask {
    const expression: string
    const timezone: Option<string>
    var status: TaskStatus

    /** `cron.schedule`: a new task starts out scheduled. */
    constructor (expression: string, timezone: Option<string>)
      ensures this.expression == expression && this.timezone == timezone
      ensures status == Scheduled
    {
      this.expression := expression;
      this.timezone := timezone;
      status := Scheduled;
    }

    /** The handle's own `stop`. */
    method Stop()
      modifies this
      ensures status == Stopped
    {
      status := Stopped;
    }
  }

  /** What `getStatus` reports. */
  datatype SchedulerStatus = SchedulerStatus(running: bool, nextExecution: Option<Instant>)

  /** How the promise of a pipeline run settled, or the process exit that cut it short. */
  datatype Settled = Resolved | Rejected(error: string) | ProcessExit(code: int)

  /**
   * How `app.run()` settles for a run report: a completed run resolves; a
   * failed stage calls `process.exit(1)`, so the promise never rejects.
   */
  function Settle(report: App.RunReport): (s: Settled)
    ensures !s.Rejected?
    ensures s == Resolved <==> report.end == App.Completed
    ensures report.end.Exited? ==> s == ProcessExit(report.end.code)
  {
    match report.end
    case Completed => Resolved
    case Exited(code) => ProcessExit(code)
  }

  /** What one tick of the task ends in: logged success, logged failure, or the end of the process. */
  datatype TickOutcome = TickCompleted | TickFailed(error: string) | TickExited(code: int)

  const InvalidExpressionPrefix := "Invalid cron expression: "

  class SchedulerService {
    const config: SchedulerConfig
    /** `cron.validate`, the library's check of an expression. */
    const validate: string -> bool
    const app: App.SaasGenieApp
    /** The handle of the task last registered, if any. */
    var task: ScheduledTask?

    /** A task is registered only for an enabled scheduler with a valid expression, on that expression. */
    ghost predicate Valid()
      reads this, task
    {
      task != null ==>
        && config.enabled
        && validate(config.cronExpression)
        && task.expression == config.cronExpression
        && task.timezone == config.timezone
    }

    constructor (config: SchedulerConfig, validate: string -> bool, app: App.SaasGenieApp)
      ensures Valid()
      ensures this.config == config && this.validate == validate && this.app == app
      ensures task == null
    {
      this.config := config;
      this.validate := validate;
      this.app := app;
      task := null;
    }

    /**
     * `start`: a disabled scheduler returns at once, without checking the
     * expression; an invalid expression throws; otherwise a new scheduled
     * task replaces the field. The handle it replaces is not stopped.
     */
    method Start() returns (r: Outcome<string>)
      requires Valid()
      modifies this
      ensures Valid()
      ensures !config.enabled ==> r == Pass && task == old(task) == null
      ensures config.enabled && !validate(config.cronExpression) ==>
                r == Fail(InvalidExpressionPrefix + config.cronExpression) && task == old(task) == null
      ensures config.enabled && validate(config.cronExpression) ==>
                r == Pass && task != null && fresh(task) && task.status == Scheduled
      ensures old(task) != null ==> unchanged(old(task))
    {
      if !config.enabled {
        return Pass;
      }
      if !validate(config.cronExpression) {
        return Fail(InvalidExpressionPrefix + config.cronExpression);
      }
      task := new ScheduledTask(config.cronExpression, config.timezone);
      r := Pass;
    }

    /** `stop`: stops the registered task, if any, and keeps it registered. Never throws. */
    method Stop()
      requires Valid()
      modifies task
      ensures Valid()
      ensures task == old(task)
      ensures task != null ==> task.status == Stopped
    {
      if task != null {
        task.Stop();
      }
    }

    /**
     * `getStatus`: without a task, not running and no next execution; with
     * one, running while it is scheduled, and a next execution always given.
     * `nextEstimate` is what `getNextExecution` computes from the clock.
     */
    function GetStatus(nextEstimate: Instant): (st: SchedulerStatus)
      reads this, task
      ensures task == null ==> !st.running && st.nextExecution.None?
      ensures task != null ==> st.nextExecution == Some(nextEstimate)
      ensures st.running <==> task != null && task.status == Scheduled
    {
      if task == null then SchedulerStatus(false, None)
      else SchedulerStatus(task.status == Scheduled, Some(nextEstimate))
    }

    /**
     * The task's callback, given how `this.app.run()` settled: a rejection is
     * caught and logged, so the callback itself never rejects; it changes
     * nothing of the scheduler or of its task.
     */
    method Tick(run: Settled) returns (t: TickOutcome)
      ensures t == TickCompleted <==> run == Resolved
      ensures t.TickFailed? <==> run.Rejected?
      ensures run.Rejected? ==> t == TickFailed(run.error)
      ensures run.ProcessExit? ==> t == TickExited(run.code)
    {
      match run
      case Resolved => t := TickCompleted;
      case Rejected(e) => t := TickFailed(e);
      case ProcessExit(code) => t := TickExited(code);
    }

    /** `runNow`: runs the pipeline at once and re-throws whatever error it raised. */
    method RunNow(run: Settled) returns (s: Settled)
      ensures s == run
    {
      s := run;
    }
  }

  /**
   * A tick of the daily pipeline: a failed stage ends the process rather than
   * reaching the callback's catch; a completed run is logged as a success.
   */
  method TickOfDailyRun(s: SchedulerService, replies: App.Replies) returns (t: TickOutcome)
    ensures !t.TickFailed?
    ensures t == TickCompleted <==> replies.trends.Ok? && replies.ideas.Ok?
    ensures t != TickCompleted ==> t == TickExited(1)
  {
    var report := App.Run(s.app, Trends.Daily, replies);
    t := s.Tick(Settle(report));
  }

  /** Started with a valid expression, the scheduler runs; stopped, it no longer does, yet still gives a next execution. */
  method StartThenStop(config: SchedulerConfig, validate: string -> bool, app: App.SaasGenieApp, estimate: Instant)
    returns (started: Outcome<string>, before: SchedulerStatus, after: SchedulerStatus)
    requires config.enabled && validate(config.cronExpression)
    ensures started == Pass
    ensures before.running && before.nextExecution == Some(estimate)
    ensures !after.running && after.nextExecution == Some(estimate)
  {
    var s := new SchedulerService(config, validate, app);
    started := s.Start();
    before := s.GetStatus(estimate);
    s.Stop();
    after := s.GetStatus(estimate);
  }

  /** A disabled scheduler starts without error, even with an invalid expression, and never runs. */
  method StartDisabled(config: SchedulerConfig, validate: string -> bool, app: App.SaasGenieApp, estimate: Instant)
    returns (started: Outcome<string>, status: SchedulerStatus)
    requires !config.enabled
    ensures started == Pass
    ensures !status.running && status.nextExecution.None?
  {
    var s := new SchedulerService(config, validate, app);
    started := s.Start();
    status := s.GetStatus(estimate);
  }

  /** An enabled scheduler with an invalid expression fails to start and registers nothing. */
  method StartInvalid(config: SchedulerConfig, validate: string -> bool, app: App.SaasGenieApp, estimate: Instant)
    returns (started: Outcome<string>, status: SchedulerStatus)
    requires config.enabled && !validate(config.cronExpression)
    ensures started == Fail("Invalid cron expression: " + config.cronExpression)
    ensures !status.running && status.nextExecution.None?
  {
    var s := new SchedulerService(config, validate, app);
    started := s.Start();
    status := s.GetStatus(estimate);
  }

  /** Stopping a scheduler never started, or stopping twice, raises nothing and leaves it not running. */
  method StopIsIdempotent(config: SchedulerConfig, validate: string -> bool, app: App.SaasGenieApp, estimate: Instant)
    returns (once: SchedulerStatus, twice: SchedulerStatus)
    ensures !once.running && once.nextExecution.None?
    ensures once == twice
  {
    var s := new SchedulerService(config, validate, app);
    s.Stop();
    once := s.GetStatus(estimate);
    s.Stop();
    twice := s.GetStatus(estimate);
  }

  /**
   * Starting twice replaces the task without stopping the first: after a
   * stop, the scheduler reports not running while the first task is still
   * scheduled, out of reach of `stop`.
   */
  method StartTwiceThenStop(config: SchedulerConfig, validate: string -> bool, app: App.SaasGenieApp, estimate: Instant)
    returns (firstStillScheduled: bool, status: SchedulerStatus)
    requires config.enabled && validate(config.cronExpression)
    ensures firstStillScheduled
    ensures !status.running
  {
    var s := new SchedulerService(config, validate, app);
    var _ := s.Start();
    var first := s.task;
    var _ := s.Start();
    s.Stop();
    firstStillScheduled := first.status == Scheduled;
    status := s.GetStatus(estimate);
  }
}
