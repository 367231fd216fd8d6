/**
 * The process entry of src/index.ts: `main` builds the application, reads
 * the mode from the first command-line argument and runs it; the scheduler
 * mode (`runScheduler`) reads its own settings and starts a scheduler.
 */
module Entry {
  import opened Wrappers
  import App
  import Trends
  import Scheduler

  const DefaultCronExpression := "0 9 * * *"
  const DefaultTimezone := "America/Sao_Paulo"

  /** The scheduler settings of `runScheduler`: a timezone is always given, the default when unset. */
  function LoadSchedulerConfig(env: App.Env): (c: Scheduler.SchedulerConfig)
    ensures c.enabled <==> "SCHEDULER_ENABLED" in env && env["SCHEDULER_ENABLED"] == "true"
    ensures App.IsSet(env, "SCHEDULER_CRON") ==> c.cronExpression == env["SCHEDULER_CRON"]
    ensures !App.IsSet(env, "SCHEDULER_CRON") ==> c.cronExpression == "0 9 * * *"
    ensures c.timezone.Some? && c.timezone.value != ""
    ensures App.IsSet(env, "SCHEDULER_TIMEZONE") ==> c.timezone == Some(env["SCHEDULER_TIMEZONE"])
    ensures !App.IsSet(env, "SCHEDULER_TIMEZONE") ==> c.timezone == Some("America/Sao_Paulo")
  {
    Scheduler.SchedulerConfig(
      cronExpression := App.EnvOr(env, "SCHEDULER_CRON", DefaultCronExpression),
      timezone := Some(App.EnvOr(env, "SCHEDULER_TIMEZONE", DefaultTimezone)),
      enabled := "SCHEDULER_ENABLED" in env && env["SCHEDULER_ENABLED"] == "true")
  }

  /**
   * `runScheduler`: builds a scheduler for the application and starts it.
   * A failed start is the error the mode's promise rejects with.
   */
  method RunScheduler(env: App.Env, validate: string -> bool, app: App.SaasGenieApp)
    returns (scheduler: Scheduler.SchedulerService, started: Outcome<string>)
    ensures fresh(scheduler) && scheduler.Valid()
    ensures scheduler.config == LoadSchedulerConfig(env) && scheduler.app == app
    ensures started.Fail? <==> scheduler.config.enabled && !validate(scheduler.config.cronExpression)
    ensures scheduler.task != null <==> started == Pass && scheduler.config.enabled
    ensures scheduler.task != null ==> scheduler.task.status == Scheduler.Scheduled
    ensures started.Fail? ==> started.error == Scheduler.InvalidExpressionPrefix + scheduler.config.cronExpression
  {
    scheduler := new Scheduler.SchedulerService(LoadSchedulerConfig(env), validate, app);
    started := scheduler.Start();
  }

  /** How `main` ends: the application could not be built, a one-shot run, or the scheduler mode. */
  datatype LaunchResult =
    | AppFailed(error: string)
    | OneShot(report: App.RunReport)
    | SchedulerLaunched(started: Outcome<string>)

  /**
   * `main`: a failure to build the application is handed to the final
   * `catch` and ends nothing else; otherwise the mode decides which run is
   * made, and only the scheduler mode builds a scheduler.
   */
  method Launch(env: App.Env, arg: Option<string>, parseInt: string -> nat, validate: string -> bool, replies: App.Replies)
    returns (launch: LaunchResult, scheduler: Scheduler.SchedulerService?)
    ensures App.NewApp(env, parseInt).Err? ==> launch == AppFailed(App.NewApp(env, parseInt).error) && scheduler == null
    ensures App.NewApp(env, parseInt).Ok? ==>
              var app := App.NewApp(env, parseInt).value;
              match App.SelectMode(arg)
              case DailyMode => launch == OneShot(App.Run(app, Trends.Daily, replies)) && scheduler == null
              case RealTimeMode => launch == OneShot(App.Run(app, Trends.RealTime, replies)) && scheduler == null
              case AnalyzeMode => launch == OneShot(App.Analyze(app, replies)) && scheduler == null
              case SchedulerMode =>
                && scheduler != null && fresh(scheduler)
                && scheduler.config == LoadSchedulerConfig(env) && scheduler.app == app
                && launch.SchedulerLaunched?
                && (launch.started.Fail? <==> scheduler.config.enabled && !validate(scheduler.config.cronExpression))
                && (scheduler.task != null <==> launch.started == Pass && scheduler.config.enabled)
                && (scheduler.task != null ==> scheduler.task.status == Scheduler.Scheduled)
                && (launch.started.Fail? ==> launch.started.error == Scheduler.InvalidExpressionPrefix + scheduler.config.cronExpression)
  {
    var built := App.NewApp(env, parseInt);
    if built.Err? {
      return AppFailed(built.error), null;
    }
    var app := built.value;
    scheduler := null;
    match App.SelectMode(arg)
    case DailyMode =>
      launch := OneShot(App.Run(app, Trends.Daily, replies));
    case RealTimeMode =>
      launch := OneShot(App.Run(app, Trends.RealTime, replies));
    case AnalyzeMode =>
      launch := OneShot(App.Analyze(app, replies));
    case SchedulerMode =>
      var s, started := RunScheduler(env, validate, app);
      scheduler := s;
      launch := SchedulerLaunched(started);
  }
}
