# Repository collector of the VCS scraper

This project models the repository collector of the VCS scraper, a Celery
worker. It is given a project key and the name of a VCS instance. It then:

- lists the project's repositories through the instance's VCS connector;
- for each repository, looks up the latest commit by the repository's name and
  exports the repository into a scan task, keeping the task only when the
  commit is truthy;
- reports the full listing to the backend inventory, with the id and name of
  each repository (`POST /resc/v1/repositories/active`);
- sends one secret-scanner task message per kept task to the repository queue.

The model is written in Dafny and proved by its verifier.

Modules:

- **`Python`** (`python.dfy`) holds the Python semantics the collector relies on:
  - `Result`, an outcome that either returns a value or raises a `PyException`;
  - `Option`, for values that may be `None`;
  - the truthiness of an optional string;
  - `str()` of an integer, written in decimal, with its round trip back to the integer.
- **`VcsConnector`** (`connector.dfy`) holds the connector as the collector sees it:
  - the raw repository records a provider lists;
  - the collector's `str(repo["id"])`;
  - the three connector calls, as an oracle that gives, for each argument, what the call returns or raises.
- **`Model`** (`model.dfy`) holds the payload of the active-repositories report.
- **`RepositoryCollector`** (`collector.dfy`) holds two layers:
  - Pure functions state what each step returns and what it does to the outside world. "The outside world" means connector calls, the report POST and task messages, recorded in order as a list of events.
  - `class Worker` carries that record as a ghost event log. Its methods mirror the functions of `common.py` step by step, including the `for` loops and the early exits on escaping exceptions. Each method is proved to return exactly what the specification functions say and to append exactly their events to the log.
- **`CollectorProperties`** (`properties.dfy`) proves what the collector promises. Each bullet names one promise:
  - every repository with a truthy commit becomes a task, in listing order;
  - a caught `HTTPError` skips only that repository;
  - any other exception ends the run;
  - the report covers the whole listing;
  - the report is posted once, before any task message;
  - dispatch sends one message per task, in order, and stops at the first failure.
- **`CollectorScenarios`** (`scenarios.dfy`) works concrete runs out against the model.

## Model

| member | source | states |
|---|---|---|
| Python.IntToStrRoundTrip | src/vcs_scraper/repository_collector/common.py:82 | `str()` of an int is an integer literal that reads back as the same int |
| Python.IntToStrInjective | src/vcs_scraper/repository_collector/common.py:82 | two ints get the same `str()` exactly when they are equal |
| Python.NatToDecimalRoundTrip | src/vcs_scraper/repository_collector/common.py:82 | the decimal digits of a natural number read back as that number |
| VcsConnector.StrId | src/vcs_scraper/repository_collector/common.py:82 | `str(repo["id"])` keeps a string id unchanged and writes an int id as a literal that parses back to the id |
| VcsConnector.StrIdKeepsIntIdsApart | src/vcs_scraper/repository_collector/common.py:82 | two int ids are reported alike exactly when they are equal |
| RepositoryCollector.ExtractRepositoryIdAndName | src/vcs_scraper/repository_collector/common.py:81-82 | one `SimpleRepository` per record, in order, with the record's name and `str` of its id |
| RepositoryCollector.Caught | src/vcs_scraper/repository_collector/common.py:63-67 | `HTTPError` skips the repository; every other exception escapes with that exception |
| RepositoryCollector.ProcessRepository | src/vcs_scraper/repository_collector/common.py:50-67 | an `HTTPError` from the lookup or the export skips the repository; any other exception from either escapes as itself; when both return, the repository yields the export as its task iff the commit is truthy, and nothing otherwise |
| RepositoryCollector.AbortIsFinal | src/vcs_scraper/repository_collector/common.py:49-67 | once an exception escapes the loop, no later repository is processed |
| RepositoryCollector.Message | src/vcs_scraper/repository_collector/common.py:78 | the message names the task and the queue, and its only keyword argument `repository` is the task's JSON |
| RepositoryCollector.SendAbortIsFinal | src/vcs_scraper/repository_collector/common.py:77-78 | once `send_task` raises, no later task is sent |
| RepositoryCollector.Worker.CallGetRepos | src/vcs_scraper/repository_collector/common.py:46 | returns the connector's listing and records the call |
| RepositoryCollector.Worker.CallGetLatestCommit | src/vcs_scraper/repository_collector/common.py:52 | returns the connector's latest commit and records the call |
| RepositoryCollector.Worker.CallExportRepository | src/vcs_scraper/repository_collector/common.py:53 | returns the connector's export and records the call |
| RepositoryCollector.Worker.TryRepository | src/vcs_scraper/repository_collector/common.py:50-67 | the outcome is `ProcessRepository`'s; the lookup by name, then the export unless the lookup raised, are recorded |
| RepositoryCollector.Worker.ProcessRepositories | src/vcs_scraper/repository_collector/common.py:48-67 | the loop returns the tasks of `ProcessAll` or raises its escaping exception, and records exactly its calls |
| RepositoryCollector.Worker.ExtractProjectInformation | src/vcs_scraper/repository_collector/common.py:40-73 | lists, runs the loop, then posts the report of the full listing; result and events are those of `Extract` |
| RepositoryCollector.Worker.SendTasksToCeleryQueue | src/vcs_scraper/repository_collector/common.py:76-78 | sends the messages of `SendAll` in order and raises the first broker failure |
| RepositoryCollector.Worker.SendRepositoryIdToBackend | src/vcs_scraper/repository_collector/common.py:85-101 | posts `ActiveRepositories(project_key, repositories, vcs_instance_name)` once and never raises, whatever the backend answers |
| RepositoryCollector.Worker.CollectRepositories | src/vcs_scraper/repository_collector/common.py:104-115 | looks up the instance (`KeyError` if unknown), builds the client, extracts, dispatches; result and events are those of `Collect` |
| CollectorProperties.ProcessAllAppend | src/vcs_scraper/repository_collector/common.py:49-67 | the loop over a concatenation is the loop over the first part continued over the second, stopping at an escaping exception |
| CollectorProperties.TasksAreKeptTasks | src/vcs_scraper/repository_collector/common.py:48-55 | without an escaping exception, the tasks are exactly the exports of repositories with a truthy commit, in listing order |
| CollectorProperties.CompletedLoopHadNoAbort | src/vcs_scraper/repository_collector/common.py:49-67 | a loop that completes met no repository whose exception escapes |
| CollectorProperties.LoopCompletesIffNoneAborts | src/vcs_scraper/repository_collector/common.py:49-67 | the loop completes iff no repository raises anything but `HTTPError` |
| CollectorProperties.FirstAbortEndsLoop | src/vcs_scraper/repository_collector/common.py:49-67 | the loop ends with the exception of the first repository whose exception escapes |
| CollectorProperties.SkippedRepositoryContributesNothing | src/vcs_scraper/repository_collector/common.py:54-61 | a repository without commits adds no task, leaves the rest of the loop unchanged and only adds its own calls |
| CollectorProperties.HttpErrorSkipsRepository | src/vcs_scraper/repository_collector/common.py:50-67 | an `HTTPError` from a repository's lookup or export adds no task, does not stop the loop, and the later repositories are still looked up and handled as if it were not listed |
| CollectorProperties.OtherErrorEndsLoop | src/vcs_scraper/repository_collector/common.py:49-67 | any other exception from a repository's lookup or export, with none escaping before it, ends the loop with that exception |
| CollectorProperties.RepositoryIsLookedUpByName | src/vcs_scraper/repository_collector/common.py:52 | the commit lookup of a repository uses its name, once |
| CollectorProperties.Names | src/vcs_scraper/repository_collector/common.py:51-52 | the names of the listing, in order |
| CollectorProperties.EveryRepositoryIsLookedUpByName | src/vcs_scraper/repository_collector/common.py:49-52 | a completed loop looks up every listed repository by name, in listing order, once each |
| CollectorProperties.LoopOnlyCallsConnector | src/vcs_scraper/repository_collector/common.py:49-67 | the loop only calls the connector |
| CollectorProperties.AtMostOneTaskPerRepository | src/vcs_scraper/repository_collector/common.py:48-55 | the loop never yields more tasks than there are listed repositories |
| CollectorProperties.ExtractionReports | src/vcs_scraper/repository_collector/common.py:40-73 | a failed listing raises with no report; the extraction succeeds iff no exception escapes the loop, and then posts exactly one report, of the whole listing, as its last step; it sends no task |
| CollectorProperties.ReportCoversListing | src/vcs_scraper/repository_collector/common.py:68-72 | the report holds one entry per listed repository (with or without commits, looked up or not), with its `str` id and name, and never fewer entries than tasks |
| CollectorProperties.ExtractReturnsKeptTasks | src/vcs_scraper/repository_collector/common.py:46-73 | when no exception escapes the loop, `extract_project_information` returns exactly the exports of the repositories with a truthy commit, in listing order |
| CollectorProperties.ExtractRaisesEscapingError | src/vcs_scraper/repository_collector/common.py:49-73 | the first exception other than `HTTPError` from a lookup or export is raised out of `extract_project_information`, and no report is posted |
| CollectorProperties.DispatchOnlySends | src/vcs_scraper/repository_collector/common.py:76-78 | dispatch only sends task messages |
| CollectorProperties.DispatchSendsEveryTask | src/vcs_scraper/repository_collector/common.py:76-78 | when the broker accepts all, one message per task is sent, in task order |
| CollectorProperties.DispatchStopsAtFirstFailure | src/vcs_scraper/repository_collector/common.py:76-78 | the first failing `send_task` ends dispatch with its exception, after exactly the earlier tasks' messages |
| CollectorProperties.UnknownInstanceFailsFirst | src/vcs_scraper/repository_collector/common.py:109-113 | an unknown instance name raises `KeyError` before any call, report or message |
| CollectorProperties.ReportPrecedesDispatch | src/vcs_scraper/repository_collector/common.py:114-115 | a run posts at most one report, and no task message is sent before it |
| CollectorProperties.RunDispatchesExtractedTasks | src/vcs_scraper/repository_collector/common.py:113-115 | a failed extraction sends nothing; otherwise the run sends exactly the messages of the extracted tasks, reports the listing, and succeeds iff every send does |
| CollectorScenarios.RepositoryWithoutCommitsIsReportedButNotScanned | src/vcs_scraper/repository_collector/common.py:54-61 | repositories A, B (no commits) and C give tasks for A and C, and a report listing all three with ids "1", "2", "3" |
| CollectorScenarios.FailedLookupIsSkippedAndReported | src/vcs_scraper/repository_collector/common.py:63-67 | a lookup raising `HTTPError` skips D; E becomes the only task; both are looked up and reported |
| CollectorScenarios.FailedListingSurfaces | src/vcs_scraper/repository_collector/common.py:46 | a listing that raises ends the run with that exception, with no report and no message |

## Left out

- Logging is not modelled (the `logger.info` and `logger.error` calls). The model has no log output.
- The module-level setup is not modelled: `validate_environment`, `create_celery_client`, the backend's host and port, and the URL and headers of the POST. The backend is a function from the report to its delivery outcome.
- The report's JSON is not modelled. `model_dump_json` followed by `json.loads` is taken to carry the `ActiveRepositories` value unchanged.
- The Celery broker is a function from a message to an optional exception. A task's JSON (`Repository.model_dump_json`) is an opaque function `dump`.
- `load_vcs_instances_into_map` and `VCSConnectorFactory.create_client_from_vcs_instance` are not modelled. The instance map and the client factory are parameters, and the factory may raise.
- The provider-specific connectors are not modelled. A connector is an oracle: each call's answer is a fixed function of its arguments. Answers that change between calls, and any other side effects of the connector, are not captured.
- Raw repository records keep only `id` (an int or a string) and `name`. The other keys of a record are not modelled, so the export sees only the id and the name.
- The `KeyError` of a record missing `"name"` or `"id"` is not modelled.
- The values of `SECRET_SCANNER_TASK_NAME`, `REPOSITORY_QUEUE` and `PROJECT_QUEUE` are not modelled. `vcs_scraper.constants` is not part of this model, so the task name and the queue are parameters of `CollectRepositories`.
- The `Repository` task descriptor and the VCS instance configuration are type parameters. The collector never looks inside either.
- Celery's task registration (`@celery_client.task`), retries and concurrency between workers are not modelled. Each run is sequential.
- `str()` of a string id keeps the string as it is. Ids of other JSON types (floats, booleans) are not modelled.
- Three behaviours of the code worth knowing, which the model keeps as written:
  - Only `requests.exceptions.HTTPError` is caught per repository. A `ConnectionError` or `Timeout` from the lookup or the export therefore escapes and ends the run instead of skipping that repository.
  - Dispatch has no per-message error handling. The first `send_task` that raises ends the run, and later tasks are not sent.
  - The active-repositories report is posted inside `extract_project_information`, before any task is dispatched. It is posted only when no exception escaped the loop.
