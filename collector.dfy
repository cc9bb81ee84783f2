/** The repository collector: for one project of one VCS instance it lists the
    repositories, turns every repository with a commit into a scan task,
    reports the whole listing to the backend inventory and puts the tasks on
    the scanner queue.

    Everything the collector does to the outside world (connector calls, the
    active-repositories POST, task messages) is recorded, in order, in the
    ghost event log of a `Worker`. The pure functions below state what that
    log and the returned value must be; the methods of `Worker` are proved
    to produce exactly that. */
module RepositoryCollector {
  import opened Python
  import opened VcsConnector
  import opened Model

  /** How the backend answered the active-repositories POST. Both failures
      are `RequestException`s: a status that `raise_for_status` turns into an
      `HTTPError`, and a POST that never got an answer. */
  datatype Delivery = Delivered | ErrorStatus | Unreachable

  /** A Celery task message: the task name, its keyword arguments, the queue. */
  datatype TaskMessage = TaskMessage(taskName: string, kwargs: map<string, string>, queue: string)

  /** One effect of the worker on the outside world. */
  datatype Event =
    | Called(call: Call)
    | ReportPosted(body: ActiveRepositories, delivery: Delivery)
    | TaskSent(message: TaskMessage)

  // ----- extract_repository_id_and_name

  /** The report entries of a listing: one `SimpleRepository(str(id), name)`
      per listed repository, in listing order. */
  function ExtractRepositoryIdAndName(repositories: seq<RawRepo>): (r: seq<SimpleRepository>)
    ensures |r| == |repositories|
    ensures forall i :: 0 <= i < |r| ==>
      r[i].name == repositories[i].name && r[i].id == StrId(repositories[i].id)
  {
    if repositories == [] then []
    else [SimpleRepository(StrId(repositories[0].id), repositories[0].name)]
         + ExtractRepositoryIdAndName(repositories[1..])
  }

  // ----- one iteration of the loop of extract_project_information

  /** What happens to one listed repository. `Skipped`: an `HTTPError` was
      caught; `NoCommit`: the latest commit is falsy; `Aborted`: any other
      exception escapes the loop. */
  datatype RepositoryOutcome<Task> = Kept(task: Task) | NoCommit | Skipped | Aborted(error: PyException)

  /** The except clause of the loop: only `HTTPError` is caught. */
  function Caught<Task>(e: PyException): (o: RepositoryOutcome<Task>)
    ensures o.Skipped? <==> e.HTTPError?
    ensures o.Aborted? <==> !e.HTTPError?
    ensures o.Aborted? ==> o.error == e
  {
    if e.HTTPError? then Skipped else Aborted(e)
  }

  /** Fetch the latest commit by the repository's name, export the repository
      whatever the commit is, and keep the export only for a truthy commit. */
  function ProcessRepository<Task>(conn: Connector<Task>, projectKey: string, vcsInstanceName: string,
                                   repository: RawRepo): (o: RepositoryOutcome<Task>)
    ensures o.Kept? <==>
      && conn.getLatestCommit(projectKey, repository.name).Ok?
      && Truthy(conn.getLatestCommit(projectKey, repository.name).value)
      && conn.exportRepository(repository, conn.getLatestCommit(projectKey, repository.name).value, vcsInstanceName).Ok?
    ensures o.Kept? ==>
      o.task == conn.exportRepository(repository, conn.getLatestCommit(projectKey, repository.name).value, vcsInstanceName).value
    ensures o.Aborted? ==> !o.error.HTTPError?
    // an exception from the lookup: `HTTPError` is caught, any other escapes as itself
    ensures conn.getLatestCommit(projectKey, repository.name) == Raised(HTTPError) ==> o == Skipped
    ensures var lookup := conn.getLatestCommit(projectKey, repository.name);
      lookup.Raised? && !lookup.error.HTTPError? ==> o == Aborted(lookup.error)
    // an exception from the export, the same way
    ensures var lookup := conn.getLatestCommit(projectKey, repository.name);
      lookup.Ok? && conn.exportRepository(repository, lookup.value, vcsInstanceName) == Raised(HTTPError)
      ==> o == Skipped
    ensures var lookup := conn.getLatestCommit(projectKey, repository.name);
      lookup.Ok? && conn.exportRepository(repository, lookup.value, vcsInstanceName).Raised?
      && !conn.exportRepository(repository, lookup.value, vcsInstanceName).error.HTTPError?
      ==> o == Aborted(conn.exportRepository(repository, lookup.value, vcsInstanceName).error)
    // both calls return, but the commit is falsy
    ensures var lookup := conn.getLatestCommit(projectKey, repository.name);
      lookup.Ok? && conn.exportRepository(repository, lookup.value, vcsInstanceName).Ok? && !Truthy(lookup.value)
      ==> o == NoCommit
  {
    match conn.getLatestCommit(projectKey, repository.name)
    case Raised(e) => Caught(e)
    case Ok(latestCommit) =>
      match conn.exportRepository(repository, latestCommit, vcsInstanceName)
      case Raised(e) => Caught(e)
      case Ok(taskParameters) => if Truthy(latestCommit) then Kept(taskParameters) else NoCommit
  }

  /** The connector calls made for one repository: the commit lookup, and the
      export unless the lookup raised. */
  function RepositoryCalls<Task>(conn: Connector<Task>, projectKey: string, vcsInstanceName: string,
                                 repository: RawRepo): seq<Event>
  {
    var lookup := Called(GetLatestCommit(projectKey, repository.name));
    match conn.getLatestCommit(projectKey, repository.name)
    case Raised(_) => [lookup]
    case Ok(latestCommit) => [lookup, Called(ExportRepository(repository, latestCommit, vcsInstanceName))]
  }

  // ----- the loop of extract_project_information

  /** The loop's state: the tasks collected, the events so far, and the
      exception that ended the loop, if one did. */
  datatype Progress<Task> = Progress(tasks: seq<Task>, trace: seq<Event>, error: Option<PyException>)

  /** The loop's state once it has run over `repositories` (a prefix of the
      listing); an escaping exception stops it. */
  function ProcessAll<Task>(conn: Connector<Task>, projectKey: string, vcsInstanceName: string,
                            repositories: seq<RawRepo>): Progress<Task>
    decreases |repositories|
  {
    if repositories == [] then Progress([], [], None)
    else
      var p := ProcessAll(conn, projectKey, vcsInstanceName, repositories[..|repositories| - 1]);
      if p.error.Some? then p
      else Advance(p, conn, projectKey, vcsInstanceName, repositories[|repositories| - 1])
  }

  /** The loop's state after one more repository. */
  function Advance<Task>(p: Progress<Task>, conn: Connector<Task>, projectKey: string, vcsInstanceName: string,
                         repository: RawRepo): Progress<Task>
  {
    var trace := p.trace + RepositoryCalls(conn, projectKey, vcsInstanceName, repository);
    match ProcessRepository(conn, projectKey, vcsInstanceName, repository)
    case Kept(task) => Progress(p.tasks + [task], trace, None)
    case Aborted(e) => Progress(p.tasks, trace, Some(e))
    case _ => Progress(p.tasks, trace, None)
  }

  /** Once an exception has escaped, the rest of the listing is not processed. */
  lemma {:induction false} AbortIsFinal<Task>(conn: Connector<Task>, projectKey: string, vcsInstanceName: string,
                                              repositories: seq<RawRepo>, k: nat)
    requires k <= |repositories|
    requires ProcessAll(conn, projectKey, vcsInstanceName, repositories[..k]).error.Some?
    ensures ProcessAll(conn, projectKey, vcsInstanceName, repositories)
         == ProcessAll(conn, projectKey, vcsInstanceName, repositories[..k])
    decreases |repositories|
  {
    if k < |repositories| {
      var prefix := repositories[..|repositories| - 1];
      assert prefix[..k] == repositories[..k];
      AbortIsFinal(conn, projectKey, vcsInstanceName, prefix, k);
    } else {
      assert repositories[..k] == repositories;
    }
  }

  // ----- extract_project_information

  datatype Extraction<Task> = Extraction(result: Result<seq<Task>>, trace: seq<Event>)

  /** The active-repositories report of a listing. */
  function ReportBody(projectKey: string, vcsInstanceName: string, repositories: seq<RawRepo>): ActiveRepositories
  {
    ActiveRepositories(projectKey, ExtractRepositoryIdAndName(repositories), vcsInstanceName)
  }

  /** List, run the loop, and report the full listing once the loop is done. */
  function Extract<Task>(conn: Connector<Task>, projectKey: string, vcsInstanceName: string,
                         backend: ActiveRepositories -> Delivery): Extraction<Task>
  {
    var listing := Called(GetRepos(projectKey));
    match conn.getRepos(projectKey)
    case Raised(e) => Extraction(Raised(e), [listing])
    case Ok(repositories) =>
      var p := ProcessAll(conn, projectKey, vcsInstanceName, repositories);
      if p.error.Some? then Extraction(Raised(p.error.value), [listing] + p.trace)
      else
        var body := ReportBody(projectKey, vcsInstanceName, repositories);
        Extraction(Ok(p.tasks), [listing] + p.trace + [ReportPosted(body, backend(body))])
  }

  // ----- send_tasks_to_celery_queue

  /** The message for one task: `kwargs={"repository": task.model_dump_json()}`. */
  function Message<Task>(taskName: string, queueName: string, dump: Task -> string, task: Task): (m: TaskMessage)
    ensures m.taskName == taskName && m.queue == queueName
    ensures m.kwargs.Keys == {"repository"} && m.kwargs["repository"] == dump(task)
  {
    TaskMessage(taskName, map["repository" := dump(task)], queueName)
  }

  datatype Dispatch = Dispatch(sent: seq<Event>, error: Option<PyException>)

  /** Sending `tasks` one after the other; the first `send_task` that raises
      stops the loop. */
  function SendAll<Task>(taskName: string, queueName: string, tasks: seq<Task>, dump: Task -> string,
                         broker: TaskMessage -> Option<PyException>): Dispatch
    decreases |tasks|
  {
    if tasks == [] then Dispatch([], None)
    else
      var d := SendAll(taskName, queueName, tasks[..|tasks| - 1], dump, broker);
      if d.error.Some? then d
      else
        var m := Message(taskName, queueName, dump, tasks[|tasks| - 1]);
        match broker(m)
        case Some(e) => Dispatch(d.sent, Some(e))
        case None => Dispatch(d.sent + [TaskSent(m)], None)
  }

  lemma {:induction false} SendAbortIsFinal<Task>(taskName: string, queueName: string, tasks: seq<Task>,
                                                  dump: Task -> string, broker: TaskMessage -> Option<PyException>,
                                                  k: nat)
    requires k <= |tasks|
    requires SendAll(taskName, queueName, tasks[..k], dump, broker).error.Some?
    ensures SendAll(taskName, queueName, tasks, dump, broker) == SendAll(taskName, queueName, tasks[..k], dump, broker)
    decreases |tasks|
  {
    if k < |tasks| {
      var prefix := tasks[..|tasks| - 1];
      assert prefix[..k] == tasks[..k];
      SendAbortIsFinal(taskName, queueName, prefix, dump, broker, k);
    } else {
      assert tasks[..k] == tasks;
    }
  }

  // ----- collect_repositories

  datatype Run = Run(result: Result<()>, trace: seq<Event>)

  /** Look the instance up, build its connector, extract, then dispatch. */
  function Collect<Config, Task>(projectKey: string, vcsInstanceName: string, vcsInstances: map<string, Config>,
                                 createClient: Config -> Result<Connector<Task>>, dump: Task -> string,
                                 backend: ActiveRepositories -> Delivery, broker: TaskMessage -> Option<PyException>,
                                 secretScannerTaskName: string, repositoryQueue: string): Run
  {
    if vcsInstanceName !in vcsInstances then Run(Raised(KeyError), [])
    else
      match createClient(vcsInstances[vcsInstanceName])
      case Raised(e) => Run(Raised(e), [])
      case Ok(conn) =>
        var x := Extract(conn, projectKey, vcsInstanceName, backend);
        match x.result
        case Raised(e) => Run(Raised(e), x.trace)
        case Ok(tasks) =>
          var d := SendAll(secretScannerTaskName, repositoryQueue, tasks, dump, broker);
          Run(if d.error.Some? then Raised(d.error.value) else Ok(()), x.trace + d.sent)
  }

  /** A worker process of the collector. Its only state is the record of what
      it has done to the outside world. */
  class Worker {
    ghost var events: seq<Event>

    constructor ()
      ensures events == []
    {
      events := [];
    }

    method CallGetRepos<Task>(conn: Connector<Task>, projectKey: string) returns (res: Result<seq<RawRepo>>)
      modifies this
      ensures res == conn.getRepos(projectKey)
      ensures events == old(events) + [Called(GetRepos(projectKey))]
    {
      events := events + [Called(GetRepos(projectKey))];
      res := conn.getRepos(projectKey);
    }

    method CallGetLatestCommit<Task>(conn: Connector<Task>, projectKey: string, repositoryId: string)
      returns (res: Result<Option<string>>)
      modifies this
      ensures res == conn.getLatestCommit(projectKey, repositoryId)
      ensures events == old(events) + [Called(GetLatestCommit(projectKey, repositoryId))]
    {
      events := events + [Called(GetLatestCommit(projectKey, repositoryId))];
      res := conn.getLatestCommit(projectKey, repositoryId);
    }

    method CallExportRepository<Task>(conn: Connector<Task>, repository: RawRepo, latestCommit: Option<string>,
                                  vcsInstanceName: string) returns (res: Result<Task>)
      modifies this
      ensures res == conn.exportRepository(repository, latestCommit, vcsInstanceName)
      ensures events == old(events) + [Called(ExportRepository(repository, latestCommit, vcsInstanceName))]
    {
      events := events + [Called(ExportRepository(repository, latestCommit, vcsInstanceName))];
      res := conn.exportRepository(repository, latestCommit, vcsInstanceName);
    }

    /** The body of the `try` for one repository: the commit lookup by name,
        the export (made whatever the commit is), and the `except HTTPError`. */
    method TryRepository<Task>(conn: Connector<Task>, projectKey: string, vcsInstanceName: string,
                               repository: RawRepo) returns (outcome: RepositoryOutcome<Task>)
      modifies this
      ensures outcome == ProcessRepository(conn, projectKey, vcsInstanceName, repository)
      ensures events == old(events) + RepositoryCalls(conn, projectKey, vcsInstanceName, repository)
    {
      var latestCommit := CallGetLatestCommit(conn, projectKey, repository.name);
      if latestCommit.Raised? {
        return Caught(latestCommit.error);
      }
      var taskParameters := CallExportRepository(conn, repository, latestCommit.value, vcsInstanceName);
      if taskParameters.Raised? {
        return Caught(taskParameters.error);
      }
      if Truthy(latestCommit.value) {
        outcome := Kept(taskParameters.value);
      } else {
        // the repository has no commits and is not forwarded to the scanner
        outcome := NoCommit;
      }
    }

    /** The `for` loop of extract_project_information over the listing. */
    method ProcessRepositories<Task>(conn: Connector<Task>, projectKey: string, vcsInstanceName: string,
                                     repositories: seq<RawRepo>) returns (res: Result<seq<Task>>)
      modifies this
      ensures var p := ProcessAll(conn, projectKey, vcsInstanceName, repositories);
        && events == old(events) + p.trace
        && res == if p.error.Some? then Raised(p.error.value) else Ok(p.tasks)
    {
      var projectTasks: seq<Task> := [];
      for i := 0 to |repositories|
        invariant var p := ProcessAll(conn, projectKey, vcsInstanceName, repositories[..i]);
          p.error == None && p.tasks == projectTasks && events == old(events) + p.trace
      {
        var repository := repositories[i];
        assert repositories[..i + 1][..i] == repositories[..i];
        var outcome := TryRepository(conn, projectKey, vcsInstanceName, repository);
        match outcome
        case Kept(taskParameters) =>
          projectTasks := projectTasks + [taskParameters];
        case Aborted(e) =>
          AbortIsFinal(conn, projectKey, vcsInstanceName, repositories, i + 1);
          return Raised(e);
        case _ =>
      }
      assert repositories[..|repositories|] == repositories;
      return Ok(projectTasks);
    }

    /** Lists the project's repositories, builds a task for every repository
        with a truthy latest commit, and reports the whole listing. */
    method ExtractProjectInformation<Task>(projectKey: string, conn: Connector<Task>, vcsInstanceName: string,
                                           backend: ActiveRepositories -> Delivery)
      returns (res: Result<seq<Task>>)
      modifies this
      ensures res == Extract(conn, projectKey, vcsInstanceName, backend).result
      ensures events == old(events) + Extract(conn, projectKey, vcsInstanceName, backend).trace
    {
      var projectRepositories := CallGetRepos(conn, projectKey);
      if projectRepositories.Raised? {
        return Raised(projectRepositories.error);
      }
      var repositories := projectRepositories.value;
      var projectTasks := ProcessRepositories(conn, projectKey, vcsInstanceName, repositories);
      if projectTasks.Raised? {
        return Raised(projectTasks.error);
      }
      SendRepositoryIdToBackend(ExtractRepositoryIdAndName(repositories), vcsInstanceName, projectKey, backend);
      return Ok(projectTasks.value);
    }

    /** Sends one message per task, in order; a `send_task` that raises ends
        the loop with that exception. */
    method SendTasksToCeleryQueue<Task>(taskName: string, queueName: string, projectTasks: seq<Task>,
                                        dump: Task -> string, broker: TaskMessage -> Option<PyException>)
      returns (res: Result<()>)
      modifies this
      ensures var d := SendAll(taskName, queueName, projectTasks, dump, broker);
        && events == old(events) + d.sent
        && res == if d.error.Some? then Raised(d.error.value) else Ok(())
    {
      for i := 0 to |projectTasks|
        invariant var d := SendAll(taskName, queueName, projectTasks[..i], dump, broker);
          d.error == None && events == old(events) + d.sent
      {
        assert projectTasks[..i + 1][..i] == projectTasks[..i];
        var message := Message(taskName, queueName, dump, projectTasks[i]);
        var raised := broker(message);
        if raised.Some? {
          SendAbortIsFinal(taskName, queueName, projectTasks, dump, broker, i + 1);
          return Raised(raised.value);
        }
        events := events + [TaskSent(message)];
      }
      assert projectTasks[..|projectTasks|] == projectTasks;
      return Ok(());
    }

    /** Posts the active-repositories report. A `RequestException` from the
        POST or from `raise_for_status` is logged and swallowed, so this never
        raises. */
    method SendRepositoryIdToBackend(repositories: seq<SimpleRepository>, vcsInstanceName: string,
                                     projectKey: string, backend: ActiveRepositories -> Delivery)
      modifies this
      ensures var body := ActiveRepositories(projectKey, repositories, vcsInstanceName);
        events == old(events) + [ReportPosted(body, backend(body))]
    {
      var body := ActiveRepositories(projectKey, repositories, vcsInstanceName);
      var delivery := backend(body);
      events := events + [ReportPosted(body, delivery)];
    }

    /** One collection run for `(projectKey, vcsInstanceName)`. */
    method CollectRepositories<Config, Task>(projectKey: string, vcsInstanceName: string,
                                             vcsInstances: map<string, Config>,
                                             createClient: Config -> Result<Connector<Task>>,
                                             dump: Task -> string, backend: ActiveRepositories -> Delivery,
                                             broker: TaskMessage -> Option<PyException>,
                                             secretScannerTaskName: string, repositoryQueue: string)
      returns (res: Result<()>)
      modifies this
      ensures var run := Collect(projectKey, vcsInstanceName, vcsInstances, createClient, dump, backend, broker,
                                 secretScannerTaskName, repositoryQueue);
        res == run.result && events == old(events) + run.trace
    {
      if vcsInstanceName !in vcsInstances {
        return Raised(KeyError);
      }
      var vcsClient := createClient(vcsInstances[vcsInstanceName]);
      if vcsClient.Raised? {
        return Raised(vcsClient.error);
      }
      var projectTasks := ExtractProjectInformation(projectKey, vcsClient.value, vcsInstanceName, backend);
      if projectTasks.Raised? {
        return Raised(projectTasks.error);
      }
      res := SendTasksToCeleryQueue(secretScannerTaskName, repositoryQueue, projectTasks.value, dump, broker);
    }
  }
}
