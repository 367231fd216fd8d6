# SaaS Genie: a Dafny model of its pipeline, scheduler, ranking and article builder

SaaS Genie is a Node/TypeScript backend. It fetches the trending topics of
the day from Google Trends and asks an OpenAI model for SaaS ideas based on
them. It can also publish those ideas as an article on Forem (Dev.to), once
or on a cron schedule. This project models the logic that sits between those
third-party calls:

- **`Trends`** ranks a trends feed. It sorts the stories by traffic, most
  traffic first, with a stable sort. Then it keeps the first `maxIdeas` and
  hands on their titles. Any feed failure becomes one fixed error.
- **`Forem`** builds the article payload from the generated text and the
  topics: title, description, markdown body, tags, canonical URL and
  `published` flag. It also turns the platform's reply into a `PublishResult`
  or an error, for the publish, draft and update requests. Its constructor
  rejects an empty API key.
- **`App`** covers the configuration read from the environment, the
  construction of the services, and the run of the pipeline. A run fetches
  topics, generates ideas from them and may then publish. It is a function
  from the answers of the outside services to a trace of the calls made, the
  publication report and how the run ends. A failed fetch or generation ends
  the process with code 1. A failed publication is caught, and the run still
  completes. `App` also covers the analysis run and the choice of mode from
  the command line.
- **`Scheduler`** is the scheduler service as a class. Its mutable state is
  the handle of the registered cron task, which is itself an object whose
  status goes from scheduled to stopped. The class has `Start`, `Stop`,
  `GetStatus`, the tick callback and `RunNow`. The cron library's
  expression check is a function fixed at construction.
- **`Entry`** covers `runScheduler` (the scheduler settings and start) and
  `main` (build the application, then dispatch on the mode).
- **`Types`** and **`Wrappers`** hold the records of `src/types.ts` and the
  `Option`/`Result`/`Outcome` wrappers.

Some JavaScript semantics are written out explicitly:
- `a || b` on environment values takes `b` when the variable is unset or
  empty.
- A reply's `url` counts as present only when it is a non-empty string, and
  its `id` only when it is a non-zero number.
- `=== 'true'` is an exact string comparison.
- `slice(0, k)` keeps `min(k, length)` elements.

## Model

| member | source | states |
|---|---|---|
| Trends.NewTrendsService | src/services/trends.service.ts:9-13 | arguments left undefined default to geo "BR", lang "pt" and 5 ideas; given arguments are kept |
| Trends.Insert | src/services/trends.service.ts:22 | inserting a story into a list ranked by traffic keeps it ranked, adds exactly that story (multiset), and puts it first or keeps the old head |
| Trends.SortByTraffic | src/services/trends.service.ts:22 | the sort by `b.traffic - a.traffic` yields a list ranked by non-increasing traffic that is a permutation of the feed |
| Trends.SortIsStable | src/services/trends.service.ts:22 | the sort is stable: the stories of any one traffic value keep their feed order |
| Trends.InsertKeepsTies | src/services/trends.service.ts:22 | inserting a story puts it ahead of the stories of equal traffic already ranked, and keeps their order |
| Trends.Rank | src/services/trends.service.ts:22-23 | keeps min(maxIdeas, feed length) stories in non-increasing traffic order, drawn from the feed (sub-multiset); every story left out has no more traffic than any story kept |
| Trends.PrefixIsTopK | src/services/trends.service.ts:23 | cutting a ranked permutation of the feed after k stories leaves out only stories of no more traffic than any story kept |
| Trends.Titles | src/services/trends.service.ts:26 | `.map(item => item.title)` gives one title per story, each the title of the story at the same position |
| Trends.TopTitles | src/services/trends.service.ts:22-26 | the titles handed on are those of the ranked stories, in order; there are min(maxIdeas, feed length) of them, and none when maxIdeas is 0 |
| Trends.Fetch | src/services/trends.service.ts:15-34 | a fetch fails exactly when the feed request fails, and then with the fixed message of that feed, never with a partial list; otherwise it returns the ranked titles |
| Trends.FeedsRankAlike | src/services/trends.service.ts:36-55 | the daily and the real-time fetch succeed on the same answers and rank them identically; their error messages differ |
| Trends.RankThreeStories | src/services/trends.service.ts:22 | stories of traffic 10, 30, 20 are sorted into the order 30, 20, 10 |
| Trends.KeepTwoOfThree | src/services/trends.service.ts:22-23 | of those three stories, two wanted, the two of most traffic are kept, most traffic first |
| Trends.TopTwoOfThree | src/services/trends.service.ts:22-26 | stories A, B, C of traffic 10, 30, 20 with two ideas wanted hand on exactly ["B", "C"] |
| Forem.NewForemService | src/services/forem.service.ts:8-15 | an empty API key is rejected with the missing-key message; otherwise the key is kept and the base URL defaults to https://dev.to/api |
| Forem.JoinContains | src/services/forem.service.ts:144 | every item of a list joined by `Join` (the model of `join(', ')`) appears in the joined text at its computed offset |
| Forem.JoinPrefix | src/services/forem.service.ts:133 | the join of the first k items is a prefix of the join of all items |
| Forem.LeadingTopics | src/services/forem.service.ts:133 | `slice(0, 3)` keeps the first min(3, n) topics, all topics when there are at most three |
| Forem.CreateArticleData | src/services/forem.service.ts:131-158 | the title and the description are their fixed prefixes followed by the same fragment, the first three topics joined by ", ", which is a prefix of all topics joined; the body starts with "# " + title, a blank line and the content verbatim, and ends with the footer, the line listing all topics and the hashtags; `published` is the argument; tags are always the four fixed tags; the canonical URL is always empty |
| Forem.TrailerListsTopic | src/services/forem.service.ts:144 | every topic appears in the analysed-topics line of the body |
| Forem.BodyListsEveryTopic | src/services/forem.service.ts:136-146 | every topic appears in the article body |
| Forem.AcceptArticle | src/services/forem.service.ts:32-42 | a reply is accepted exactly when the request succeeded and its data has a url (`HasUrl`: present and non-empty, the truthiness test of lines 32 and 113); an accepted result is {success: true, url, id}; a failed request keeps its error; a reply without url is the unexpected-format error |
| Forem.AcceptDraft | src/services/forem.service.ts:65-74 | a draft reply is accepted exactly when the request succeeded and its data has an id (`HasId`: present and non-zero, the truthiness test of line 65); the result has success, that id and no url |
| Forem.PublishArticle | src/services/forem.service.ts:17-48 | publishing creates a new article built with `published` true; its result is exactly `AcceptArticle` of the reply: a success carrying the reply's URL and id when the reply has a URL, otherwise the request's own error or the unexpected-format error |
| Forem.PublishDraft | src/services/forem.service.ts:50-80 | a draft creates a new article built with `published` false; its result is exactly `AcceptDraft` of the reply: a success carrying the reply's id and no URL when the reply has an id, otherwise the request's own error or the unexpected-format error |
| Forem.UpdateArticle | src/services/forem.service.ts:100-129 | an update replaces the given article by one built with `published` true; its result is exactly `AcceptArticle` of the reply, as for publishing |
| Forem.DraftDiffersOnlyInPublished | src/services/forem.service.ts:131-158 | the draft payload and the published payload for the same input differ only in the `published` flag |
| App.EnvOr | src/index.ts:22-26 | `process.env.X \|\| d` is the variable's value when it is set and non-empty, else the default |
| App.LoadConfig | src/index.ts:20-28 | maxIdeas parses MAX_IDEAS or "5"; the model defaults to gpt-4o-mini; shouldPublish is true exactly when PUBLISH_ARTICLE is "true"; geo and lang default to BR and pt |
| App.NewApp | src/index.ts:30-50 | construction fails with the missing-key message exactly when OPENAI_API_KEY is unset or empty; a publisher exists exactly when FOREM_API_KEY is set and non-empty, on FOREM_BASE_URL or the default; the trends service takes the configured geo, lang and maxIdeas |
| App.Run | src/index.ts:52-120 | the run fetches first; a fetch failure makes no other call and exits with 1; the ideas are generated from the ranked titles; a generation failure exits with 1 after exactly those two calls; the run exits with 1 exactly when fetch or generation fails, and otherwise completes with a publication report (the steps after the fetch, lines 60-80, are the helper `AfterFetch`) |
| App.PublishGate | src/index.ts:57-66 | the publisher is called exactly when fetch and generation succeeded, publishing is enabled, the text is non-empty and a publisher exists; it is then the last of three calls and receives exactly the generated text and the topics the ideas were generated from |
| App.PublishFailureIsCaught | src/index.ts:65-80 | once the publisher is called the run completes whatever the platform answers; the report is a failure exactly when the reply is not accepted, a reported publication is a success, and the message logged for a caught failure is the request's error or the unexpected-format message |
| App.SkipOrder | src/index.ts:63-78 | with publishing disabled the disabled report wins even without a publisher; otherwise a missing publisher is reported; enabled and configured, an empty text reports nothing to publish |
| App.PublishingCannotFailRun | src/index.ts:65-73 | whatever the platform answers, the run makes the same calls and ends the same way |
| App.RunsDifferOnlyInFeed | src/index.ts:87-120 | the real-time run makes the same calls after its fetch, and reports and ends the same way as the daily run on the same answers |
| App.Analyze | src/index.ts:122-140 | the analysis run fetches the daily topics and has the ranked titles analysed; either failure exits with 1; it never publishes |
| App.SelectMode | src/index.ts:191-207 | "realtime", "analyze" and "scheduler" select their modes; anything else, or no argument, selects daily |
| Scheduler.ScheduledTask.constructor | src/services/scheduler.service.ts:39-53 | a new cron task is registered on the expression and timezone and starts out scheduled |
| Scheduler.ScheduledTask.Stop | src/services/scheduler.service.ts:63 | stopping a task handle sets its status to stopped |
| Scheduler.Settle | src/index.ts:81-84 | the promise of a run resolves exactly when the run completes; a failed stage ends the process with its exit code, so the promise never rejects |
| Scheduler.SchedulerService.constructor | src/services/scheduler.service.ts:15-18 | a new scheduler keeps its settings and holds no task |
| Scheduler.SchedulerService.Start | src/services/scheduler.service.ts:23-56 | disabled: returns without checking the expression and registers nothing; enabled with an invalid expression: fails with "Invalid cron expression: " + the expression and registers nothing; otherwise a new scheduled task on the configured expression and timezone replaces the field, and the handle it replaces is left as it was |
| Scheduler.SchedulerService.Stop | src/services/scheduler.service.ts:61-66 | stopping keeps the task field and sets the held task's status to stopped; without a task it does nothing |
| Scheduler.SchedulerService.GetStatus | src/services/scheduler.service.ts:71-80 | without a task: not running and no next execution; with one: running exactly while the task is scheduled, and a next execution always given |
| Scheduler.SchedulerService.Tick | src/services/scheduler.service.ts:41-49 | the callback completes exactly when the run resolves and catches a rejection as a logged failure; it changes neither the scheduler nor its task |
| Scheduler.SchedulerService.RunNow | src/services/scheduler.service.ts:105-114 | running on demand re-throws the run's error unchanged |
| Scheduler.TickOfDailyRun | src/services/scheduler.service.ts:41-49 | a tick of the daily pipeline completes exactly when fetch and generation succeed; otherwise the process exits with 1, so the callback's catch is never reached |
| Scheduler.StartThenStop | src/services/scheduler.service.ts:39-79 | after a valid start the scheduler runs; after a stop it no longer runs, yet still gives a next execution |
| Scheduler.StartDisabled | src/services/scheduler.service.ts:24-27 | a disabled scheduler starts without error, whatever its expression, and reports not running with no next execution |
| Scheduler.StartInvalid | src/services/scheduler.service.ts:29-31 | an enabled scheduler with an invalid expression fails with the invalid-expression message and registers no task |
| Scheduler.StopIsIdempotent | src/services/scheduler.service.ts:61-66 | stopping a scheduler that never started raises nothing, leaves it not running, and a second stop changes nothing |
| Scheduler.StartTwiceThenStop | src/services/scheduler.service.ts:39 | a second start replaces the task without stopping the first: after a stop, the scheduler reports not running while the first task is still scheduled |
| Entry.LoadSchedulerConfig | src/index.ts:147-151 | the cron expression defaults to "0 9 * * *"; a timezone is always given, "America/Sao_Paulo" by default; the scheduler is enabled exactly when SCHEDULER_ENABLED is "true" |
| Entry.RunScheduler | src/index.ts:144-184 | the scheduler mode builds a scheduler on those settings and starts it; the start fails exactly when it is enabled with an invalid expression, with the message "Invalid cron expression: " followed by the expression, and a task is held exactly when it is enabled and started |
| Entry.Launch | src/index.ts:187-211 | a failure to build the application ends `main` with that error; otherwise the mode selects the daily run, the real-time run, the analysis or the scheduler, and only the scheduler mode builds a scheduler, one holding the loaded scheduler configuration and the application, with a task exactly when it is enabled and started, that task in the scheduled state, and a failed start carrying the invalid-expression message |

## Left out

- HTTP and SDK calls are not modelled: the axios requests to the Forem API, the OpenAI client and the Google Trends client. Their results are parameters, as `Ok` answers or `Err` messages. Headers, endpoint URLs and the use of the API key and base URL in requests are therefore not modelled either.
- `ForemService.getArticle` and `ForemService.getUserArticles` are left out. They only forward a request and return its data, so they carry no logic of their own.
- src/services/openai.service.ts is not part of this model. Generated and analysed text are opaque strings given to the run, and a reply the client would report as missing content is not distinguished from an empty string.
- The cron library's internals are not modelled: expression syntax, timezone handling and timed firing. `validate` is an uninterpreted function, and a tick is a call of `Tick`. Overlapping ticks are a concurrency question and are not modelled.
- The task status strings of the cron library are taken to be "scheduled" while a task fires and "stopped" after `stop`.
- Scheduler.SchedulerService.GetStatus: the next execution is the opaque parameter `nextEstimate`, because `getNextExecution` is clock arithmetic (now plus one day). Its never-taken fallback to undefined is not modelled.
- App.LoadConfig: `parseInt` is a parameter that returns a natural number, so NaN and negative `MAX_IDEAS` are not modelled. A negative `slice` end drops elements from the tail in JavaScript, and that behaviour is outside the model.
- Trends.Rank: traffic is a real number, so NaN and the infinities of JavaScript numbers are not modelled; NaN, or two equal infinities, make `b.traffic - a.traffic` no longer a consistent order.
- The scheduler service builds its own `SaasGenieApp` from the same environment. In the model the application is given to it, because construction reads only the environment and so builds the same value.
- The application's fields are assigned once, during construction. The application is therefore modelled as a value built by `App.NewApp`, not as a class.
- Console output, the SIGINT/SIGTERM handlers with their `process.exit(0)`, and the hourly status log of `runScheduler` are left out.
- Asynchrony is not modelled, and each await is taken to finish before the next step runs. A scheduler start that throws in `runScheduler` rejects `main`'s promise, which `.catch` logs. The model reports that outcome as `started`.
