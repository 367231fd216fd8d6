/**
 * The application of src/index.ts: settings read from the environment, the
 * three services built from them, and the runs that chain them — fetch the
 * trending topics, generate ideas from them, and optionally publish the
 * ideas as an article.
 *
 * Every call into a collaborator whose work happens elsewhere (the trends
 * feed, the language model, the publishing platform) is replaced by its
 * answer, given as a parameter. A run is then a function from those answers
 * to a report: the calls made, in order and with their arguments, what
 * became of the publication, and how the run ended.
 */
module App {
  import opened Wrappers
  import opened Types
  import Trends
  import Forem

  /** The process environment: a variable that is not set has no entry. */
  type Env = map<string, string>

  const OpenAiKeyMissingMessage := "OPENAI_API_KEY not found in environment variables"
  const DefaultMaxIdeasText := "5"
  const DefaultModel := "gpt-4o-mini"

  /** A variable holds a truthy value: it is set and not empty. */
  predicate IsSet(env: Env, name: string)
  {
    name in env && env[name] != ""
  }

  /** `process.env[name] || fallback`: an unset or empty variable gives the fallback. */
  function EnvOr(env: Env, name: string, fallback: string): (v: string)
    ensures IsSet(env, name) ==> v == env[name]
    ensures !IsSet(env, name) ==> v == fallback
  {
    if IsSet(env, name) then env[name] else fallback
  }

  /**
   * `loadConfig`. `parseInt` stands for the integer parse the source applies
   * to MAX_IDEAS (or to "5" when it is unset or empty).
   */
  function LoadConfig(env: Env, parseInt: string -> nat): (c: AppConfig)
    ensures c.shouldPublish <==> "PUBLISH_ARTICLE" in env && env["PUBLISH_ARTICLE"] == "true"
    ensures c.maxIdeas == parseInt(if IsSet(env, "MAX_IDEAS") then env["MAX_IDEAS"] else "5")
    ensures IsSet(env, "OPENAI_MODEL") ==> c.openaiModel == env["OPENAI_MODEL"]
    ensures !IsSet(env, "OPENAI_MODEL") ==> c.openaiModel == "gpt-4o-mini"
    ensures IsSet(env, "GEO") ==> c.geo == env["GEO"]
    ensures !IsSet(env, "GEO") ==> c.geo == "BR"
    ensures IsSet(env, "LANG") ==> c.lang == env["LANG"]
    ensures !IsSet(env, "LANG") ==> c.lang == "pt"
  {
    AppConfig(
      maxIdeas := parseInt(EnvOr(env, "MAX_IDEAS", DefaultMaxIdeasText)),
      openaiModel := EnvOr(env, "OPENAI_MODEL", DefaultModel),
      shouldPublish := "PUBLISH_ARTICLE" in env && env["PUBLISH_ARTICLE"] == "true",
      geo := EnvOr(env, "GEO", Trends.DefaultGeo),
      lang := EnvOr(env, "LANG", Trends.DefaultLang))
  }

  /** The settings of the language-model client; the client itself is not part of this model. */
  datatype OpenAIService = OpenAIService(apiKey: string, model: string)

  /** The application: its settings and its three services, the publisher being optional. */
  datatype SaasGenieApp = SaasGenieApp(
    config: AppConfig,
    trends: Trends.TrendsService,
    openai: OpenAIService,
    forem: Option<Forem.ForemService>)

  /**
   * The constructor, `loadConfig` followed by `initializeServices`: without
   * an OpenAI key the construction throws; a publisher is built exactly when
   * a Forem key is set.
   */
  function NewApp(env: Env, parseInt: string -> nat): (r: Result<SaasGenieApp, string>)
    ensures r.Err? <==> !IsSet(env, "OPENAI_API_KEY")
    ensures r.Err? ==> r.error == "OPENAI_API_KEY not found in environment variables"
    ensures r.Ok? ==> r.value.config == LoadConfig(env, parseInt)
    ensures r.Ok? ==> r.value.trends == Trends.TrendsService(r.value.config.geo, r.value.config.lang, r.value.config.maxIdeas)
    ensures r.Ok? ==> r.value.openai == OpenAIService(env["OPENAI_API_KEY"], r.value.config.openaiModel)
    ensures r.Ok? ==> (r.value.forem.Some? <==> IsSet(env, "FOREM_API_KEY"))
    ensures r.Ok? && r.value.forem.Some? ==> r.value.forem.value.apiKey == env["FOREM_API_KEY"]
    ensures r.Ok? && r.value.forem.Some? && IsSet(env, "FOREM_BASE_URL") ==> r.value.forem.value.baseUrl == env["FOREM_BASE_URL"]
    ensures r.Ok? && r.value.forem.Some? && !IsSet(env, "FOREM_BASE_URL") ==> r.value.forem.value.baseUrl == "https://dev.to/api"
  {
    var config := LoadConfig(env, parseInt);
    var trends := Trends.NewTrendsService(Some(config.geo), Some(config.lang), Some(config.maxIdeas));
    if !IsSet(env, "OPENAI_API_KEY") then Err(OpenAiKeyMissingMessage)
    else
      var openai := OpenAIService(env["OPENAI_API_KEY"], config.openaiModel);
      var forem :=
        if IsSet(env, "FOREM_API_KEY") then
          var built := Forem.NewForemService(env["FOREM_API_KEY"], Some(EnvOr(env, "FOREM_BASE_URL", Forem.DefaultBaseUrl)));
          Some(built.value)
        else None;
      Ok(SaasGenieApp(config, trends, openai, forem))
  }

  /** A call into a collaborator, with its arguments. */
  datatype Call =
    | FetchTrends(kind: Trends.TrendsKind)
    | GenerateIdeas(topics: seq<string>)
    | AnalyzeTopics(topics: seq<string>)
    | PublishArticle(content: string, topics: seq<string>)

  /**
   * What became of the publication once ideas were generated: skipped because
   * publishing is disabled, skipped because no publisher is configured,
   * skipped without a word because the text is empty, or attempted, with its
   * result or the error that was caught.
   */
  datatype PublishReport =
    | PublishDisabled
    | PublisherMissing
    | NothingToPublish
    | Published(result: PublishResult)
    | PublishFailed(error: Forem.ForemError)

  /** How a run ends: "completed successfully", or `process.exit(code)`. */
  datatype Termination = Completed | Exited(code: int)

  /** One run: the calls made, in order; the publication report, if the run got that far; the end. */
  datatype RunReport = RunReport(calls: seq<Call>, publish: Option<PublishReport>, end: Termination)

  /** The answers the collaborators give during one run. */
  datatype Replies = Replies(
    trends: Result<seq<TrendingStory>, string>,
    ideas: Result<string, string>,
    analysis: Result<string, string>,
    forem: Result<Forem.HttpReply, string>)

  /** Some call of the run went to the publisher. */
  predicate PublishAttempted(calls: seq<Call>)
  {
    exists i :: 0 <= i < |calls| && calls[i].PublishArticle?
  }

  /** The three conditions of the publication gate. */
  predicate ShouldAttemptPublish(app: SaasGenieApp, text: string)
  {
    app.config.shouldPublish && text != "" && app.forem.Some?
  }

  /**
   * What a run does once the topics are in: generate ideas from them, then
   * go through the publication gate. The calls are those after the fetch.
   */
  function AfterFetch(app: SaasGenieApp, topics: seq<string>, replies: Replies): RunReport
  {
    var calls := [GenerateIdeas(topics)];
    if replies.ideas.Err? then
      RunReport(calls, None, Exited(1))
    else
      var text := replies.ideas.value;
      if ShouldAttemptPublish(app, text) then
        var publication := Forem.PublishArticle(text, topics, replies.forem);
        var report :=
          if publication.result.Ok? then Published(publication.result.value)
          else PublishFailed(publication.result.error);
        RunReport(calls + [PublishArticle(text, topics)], Some(report), Completed)
      else
        var report :=
          if !app.config.shouldPublish then PublishDisabled
          else if app.forem.None? then PublisherMissing
          else NothingToPublish;
        RunReport(calls, Some(report), Completed)
  }

  /**
   * `run` (kind `Daily`) and `runWithRealTimeTrends` (kind `RealTime`): fetch
   * the topics, generate ideas from them, and publish through the gate. A
   * failure to fetch or to generate ends the process with code 1 before any
   * later call; otherwise the run completes.
   */
  function Run(app: SaasGenieApp, kind: Trends.TrendsKind, replies: Replies): (r: RunReport)
    ensures |r.calls| >= 1 && r.calls[0] == FetchTrends(kind)
    ensures r.end == Completed || r.end == Exited(1)
    ensures r.end == Exited(1) <==> replies.trends.Err? || replies.ideas.Err?
    ensures r.end == Exited(1) <==> r.publish.None?
    ensures replies.trends.Err? ==> r.calls == [FetchTrends(kind)]
    ensures replies.trends.Ok? ==>
              |r.calls| >= 2 && r.calls[1] == GenerateIdeas(Trends.TopTitles(replies.trends.value, app.trends.maxIdeas))
    ensures replies.trends.Ok? && replies.ideas.Err? ==> |r.calls| == 2
  {
    var fetched := Trends.Fetch(app.trends, kind, replies.trends);
    if fetched.Err? then
      RunReport([FetchTrends(kind)], None, Exited(1))
    else
      var rest := AfterFetch(app, fetched.value, replies);
      RunReport([FetchTrends(kind)] + rest.calls, rest.publish, rest.end)
  }

  /**
   * The publication gate: the publisher is called exactly when fetch and
   * generation succeeded, publishing is enabled, the text is non-empty and a
   * publisher exists; it then receives exactly the generated text and the
   * topics the ideas were generated from, as the last call of the run.
   */
  lemma PublishGate(app: SaasGenieApp, kind: Trends.TrendsKind, replies: Replies)
    ensures PublishAttempted(Run(app, kind, replies).calls) <==>
              replies.trends.Ok? && replies.ideas.Ok? && ShouldAttemptPublish(app, replies.ideas.value)
    ensures PublishAttempted(Run(app, kind, replies).calls) ==>
              var calls := Run(app, kind, replies).calls;
              |calls| == 3 && calls[2] == PublishArticle(replies.ideas.value, calls[1].topics)
  {
    var calls := Run(app, kind, replies).calls;
    if replies.trends.Ok? && replies.ideas.Ok? && ShouldAttemptPublish(app, replies.ideas.value) {
      assert calls[2].PublishArticle?;
    } else {
      assert forall i | 0 <= i < |calls| :: !calls[i].PublishArticle?;
    }
  }

  /**
   * Failure isolation: once the publisher is called, the run completes
   * whatever the platform answers; the report says whether the article was
   * published, and a publication reported is always a success.
   */
  lemma PublishFailureIsCaught(app: SaasGenieApp, kind: Trends.TrendsKind, replies: Replies)
    requires replies.trends.Ok? && replies.ideas.Ok? && ShouldAttemptPublish(app, replies.ideas.value)
    ensures Run(app, kind, replies).end == Completed
    ensures Run(app, kind, replies).publish.Some?
    ensures Run(app, kind, replies).publish.value.PublishFailed? <==>
              !(replies.forem.Ok? && Forem.HasUrl(replies.forem.value))
    ensures Run(app, kind, replies).publish.value.Published? ==> Run(app, kind, replies).publish.value.result.success
    ensures Run(app, kind, replies).publish.value.PublishFailed? ==>
              Forem.ErrorMessage(Run(app, kind, replies).publish.value.error) ==
              (if replies.forem.Err? then replies.forem.error else Forem.UnexpectedFormatMessage)
  {
  }

  /**
   * The skip reports, in their order: publishing disabled wins even without
   * a publisher; then a missing publisher; an enabled and configured run
   * with an empty text reports nothing to publish.
   */
  lemma SkipOrder(app: SaasGenieApp, kind: Trends.TrendsKind, replies: Replies)
    requires replies.trends.Ok? && replies.ideas.Ok?
    ensures !app.config.shouldPublish ==> Run(app, kind, replies).publish == Some(PublishDisabled)
    ensures app.config.shouldPublish && app.forem.None? ==> Run(app, kind, replies).publish == Some(PublisherMissing)
    ensures app.config.shouldPublish && app.forem.Some? ==>
              (replies.ideas.value == "" <==> Run(app, kind, replies).publish == Some(NothingToPublish))
  {
  }

  /**
   * Whatever the platform answers, the run makes the same calls and ends the
   * same way; only the publication report differs.
   */
  lemma PublishingCannotFailRun(app: SaasGenieApp, kind: Trends.TrendsKind, replies: Replies, other: Result<Forem.HttpReply, string>)
    ensures Run(app, kind, replies).calls == Run(app, kind, replies.(forem := other)).calls
    ensures Run(app, kind, replies).end == Run(app, kind, replies.(forem := other)).end
  {
  }

  /**
   * The daily and the real-time run differ only in the feed they ask: given
   * the same answers, they generate from the same topics, publish the same
   * way and end the same way.
   */
  lemma RunsDifferOnlyInFeed(app: SaasGenieApp, replies: Replies)
    ensures Run(app, Trends.Daily, replies).calls[1..] == Run(app, Trends.RealTime, replies).calls[1..]
    ensures Run(app, Trends.Daily, replies).publish == Run(app, Trends.RealTime, replies).publish
    ensures Run(app, Trends.Daily, replies).end == Run(app, Trends.RealTime, replies).end
  {
    Trends.FeedsRankAlike(app.trends, replies.trends);
    if replies.trends.Ok? {
      var rest := AfterFetch(app, Trends.TopTitles(replies.trends.value, app.trends.maxIdeas), replies);
      assert ([FetchTrends(Trends.Daily)] + rest.calls)[1..] == rest.calls;
      assert ([FetchTrends(Trends.RealTime)] + rest.calls)[1..] == rest.calls;
    }
  }

  /**
   * `analyzeTrends`: fetch the daily topics and have them analysed; either
   * failure ends the process with code 1. Nothing is published.
   */
  function Analyze(app: SaasGenieApp, replies: Replies): (r: RunReport)
    ensures r.publish.None?
    ensures !PublishAttempted(r.calls)
    ensures r.end == Completed || r.end == Exited(1)
    ensures r.end == Exited(1) <==> replies.trends.Err? || replies.analysis.Err?
    ensures replies.trends.Err? ==> r.calls == [FetchTrends(Trends.Daily)]
    ensures replies.trends.Ok? ==>
              r.calls == [FetchTrends(Trends.Daily), AnalyzeTopics(Trends.TopTitles(replies.trends.value, app.trends.maxIdeas))]
  {
    var fetched := Trends.Fetch(app.trends, Trends.Daily, replies.trends);
    if fetched.Err? then
      RunReport([FetchTrends(Trends.Daily)], None, Exited(1))
    else
      var calls := [FetchTrends(Trends.Daily), AnalyzeTopics(fetched.value)];
      RunReport(calls, None, if replies.analysis.Ok? then Completed else Exited(1))
  }

  /** The modes of `main`. */
  datatype Mode = DailyMode | RealTimeMode | AnalyzeMode | SchedulerMode

  /** `process.argv[2] || 'daily'` and the switch on it: anything unknown, or nothing, is daily. */
  function SelectMode(arg: Option<string>): (m: Mode)
    ensures m == RealTimeMode <==> arg == Some("realtime")
    ensures m == AnalyzeMode <==> arg == Some("analyze")
    ensures m == SchedulerMode <==> arg == Some("scheduler")
    ensures m == DailyMode <==> arg != Some("realtime") && arg != Some("analyze") && arg != Some("scheduler")
  {
    match arg
    case Some("realtime") => RealTimeMode
    case Some("analyze") => AnalyzeMode
    case Some("scheduler") => SchedulerMode
    case _ => DailyMode
  }
}
