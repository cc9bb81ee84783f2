/** What a collection run guarantees: which repositories become tasks, what
    the active-repositories report holds, which exceptions are contained and
    which end the run, and in what order the effects happen. */
module CollectorProperties {
  import opened Python
  import opened VcsConnector
  import opened Model
  import opened RepositoryCollector

  // ----- views of an event log

  /** The bodies of the active-repositories reports in a log, in order. */
  function Reports(trace: seq<Event>): seq<ActiveRepositories>
  {
    if trace == [] then []
    else (if trace[0].ReportPosted? then [trace[0].body] else []) + Reports(trace[1..])
  }

  /** The task messages in a log, in order. */
  function SentMessages(trace: seq<Event>): seq<TaskMessage>
  {
    if trace == [] then []
    else (if trace[0].TaskSent? then [trace[0].message] else []) + SentMessages(trace[1..])
  }

  /** The `repository_id` of every commit lookup in a log, in order. */
  function CommitLookups(trace: seq<Event>): seq<string>
  {
    if trace == [] then []
    else (if trace[0].Called? && trace[0].call.GetLatestCommit? then [trace[0].call.repositoryId] else [])
         + CommitLookups(trace[1..])
  }

  lemma {:induction false} ReportsAppend(a: seq<Event>, b: seq<Event>)
    ensures Reports(a + b) == Reports(a) + Reports(b)
  {
    if a == [] {
      assert a + b == b;
    } else {
      var head := if a[0].ReportPosted? then [a[0].body] else [];
      assert (a + b)[0] == a[0] && (a + b)[1..] == a[1..] + b;
      assert Reports(a + b) == head + Reports(a[1..] + b);
      ReportsAppend(a[1..], b);
      assert head + (Reports(a[1..]) + Reports(b)) == (head + Reports(a[1..])) + Reports(b);
    }
  }

  lemma {:induction false} SentMessagesAppend(a: seq<Event>, b: seq<Event>)
    ensures SentMessages(a + b) == SentMessages(a) + SentMessages(b)
  {
    if a == [] {
      assert a + b == b;
    } else {
      var head := if a[0].TaskSent? then [a[0].message] else [];
      assert (a + b)[0] == a[0] && (a + b)[1..] == a[1..] + b;
      assert SentMessages(a + b) == head + SentMessages(a[1..] + b);
      SentMessagesAppend(a[1..], b);
      assert head + (SentMessages(a[1..]) + SentMessages(b)) == (head + SentMessages(a[1..])) + SentMessages(b);
    }
  }

  lemma {:induction false} CommitLookupsAppend(a: seq<Event>, b: seq<Event>)
    ensures CommitLookups(a + b) == CommitLookups(a) + CommitLookups(b)
  {
    if a == [] {
      assert a + b == b;
    } else {
      var head := if a[0].Called? && a[0].call.GetLatestCommit? then [a[0].call.repositoryId] else [];
      assert (a + b)[0] == a[0] && (a + b)[1..] == a[1..] + b;
      assert CommitLookups(a + b) == head + CommitLookups(a[1..] + b);
      CommitLookupsAppend(a[1..], b);
      assert head + (CommitLookups(a[1..]) + CommitLookups(b)) == (head + CommitLookups(a[1..])) + CommitLookups(b);
    }
  }

  ghost predicate OnlyConnectorCalls(trace: seq<Event>) {
    forall i :: 0 <= i < |trace| ==> trace[i].Called?
  }

  ghost predicate OnlyTaskMessages(trace: seq<Event>) {
    forall i :: 0 <= i < |trace| ==> trace[i].TaskSent?
  }

  /** Connector calls neither report nor send. */
  lemma {:induction false} ConnectorCallsSendNothing(trace: seq<Event>)
    requires OnlyConnectorCalls(trace)
    ensures Reports(trace) == [] && SentMessages(trace) == []
  {
    if trace != [] {
      ConnectorCallsSendNothing(trace[1..]);
    }
  }

  /** A log of task messages holds no report, and its messages are its events' messages. */
  lemma {:induction false} TaskMessagesAreSent(trace: seq<Event>)
    requires OnlyTaskMessages(trace)
    ensures Reports(trace) == []
    ensures |SentMessages(trace)| == |trace|
    ensures forall i :: 0 <= i < |trace| ==> SentMessages(trace)[i] == trace[i].message
  {
    if trace != [] {
      TaskMessagesAreSent(trace[1..]);
    }
  }

  // ----- the loop over the listing

  /** The loop's state after running over `p`'s part and then `q`'s part. */
  function Join<Task>(p: Progress<Task>, q: Progress<Task>): Progress<Task>
  {
    Progress(p.tasks + q.tasks, p.trace + q.trace, q.error)
  }

  /** Running the loop over `a + b` is running it over `a` and then, unless
      an exception escaped, over `b`: each repository is handled on its own. */
  lemma {:induction false} ProcessAllAppend<Task>(conn: Connector<Task>, projectKey: string, vcsInstanceName: string,
                                                  a: seq<RawRepo>, b: seq<RawRepo>)
    ensures ProcessAll(conn, projectKey, vcsInstanceName, a + b)
         == if ProcessAll(conn, projectKey, vcsInstanceName, a).error.Some?
            then ProcessAll(conn, projectKey, vcsInstanceName, a)
            else Join(ProcessAll(conn, projectKey, vcsInstanceName, a), ProcessAll(conn, projectKey, vcsInstanceName, b))
    decreases |b|
  {
    if b == [] {
      assert a + b == a;
    } else {
      var front := b[..|b| - 1];
      var last := b[|b| - 1];
      assert (a + b)[..|a + b| - 1] == a + front;
      assert (a + b)[|a + b| - 1] == last;
      ProcessAllAppend(conn, projectKey, vcsInstanceName, a, front);
      var pa := ProcessAll(conn, projectKey, vcsInstanceName, a);
      var pf := ProcessAll(conn, projectKey, vcsInstanceName, front);
      if pa.error.None? && pf.error.None? {
        var calls := RepositoryCalls(conn, projectKey, vcsInstanceName, last);
        assert (pa.trace + pf.trace) + calls == pa.trace + (pf.trace + calls);
        match ProcessRepository(conn, projectKey, vcsInstanceName, last)
        case Kept(task) =>
          assert (pa.tasks + pf.tasks) + [task] == pa.tasks + (pf.tasks + [task]);
        case _ =>
      }
    }
  }

  /** The reference definition of the task list: in listing order, the export
      of every repository whose commit lookup by name returned a truthy commit
      and whose export returned. */
  function KeptTasks<Task>(conn: Connector<Task>, projectKey: string, vcsInstanceName: string,
                           repositories: seq<RawRepo>): seq<Task>
    decreases |repositories|
  {
    if repositories == [] then []
    else
      var repository := repositories[0];
      var latestCommit := conn.getLatestCommit(projectKey, repository.name);
      var kept :=
        if latestCommit.Ok? && Truthy(latestCommit.value)
           && conn.exportRepository(repository, latestCommit.value, vcsInstanceName).Ok?
        then [conn.exportRepository(repository, latestCommit.value, vcsInstanceName).value]
        else [];
      kept + KeptTasks(conn, projectKey, vcsInstanceName, repositories[1..])
  }

  /** No repository raises anything but `HTTPError`. */
  ghost predicate NoneAborts<Task>(conn: Connector<Task>, projectKey: string, vcsInstanceName: string,
                                   repositories: seq<RawRepo>)
  {
    forall i :: 0 <= i < |repositories| ==> !ProcessRepository(conn, projectKey, vcsInstanceName, repositories[i]).Aborted?
  }

  /** When nothing escapes, the loop yields exactly the reference task list. */
  lemma {:induction false} TasksAreKeptTasks<Task>(conn: Connector<Task>, projectKey: string, vcsInstanceName: string,
                                                   repositories: seq<RawRepo>)
    requires NoneAborts(conn, projectKey, vcsInstanceName, repositories)
    ensures ProcessAll(conn, projectKey, vcsInstanceName, repositories).error == None
    ensures ProcessAll(conn, projectKey, vcsInstanceName, repositories).tasks
         == KeptTasks(conn, projectKey, vcsInstanceName, repositories)
    decreases |repositories|
  {
    if repositories != [] {
      var first := repositories[0];
      var rest := repositories[1..];
      assert repositories == [first] + rest;
      assert [first][..0] == [];
      ProcessAllAppend(conn, projectKey, vcsInstanceName, [first], rest);
      assert forall i :: 0 <= i < |rest| ==> rest[i] == repositories[i + 1];
      TasksAreKeptTasks(conn, projectKey, vcsInstanceName, rest);
    }
  }

  /** The loop finishes without an exception only if no repository raised
      anything but `HTTPError`. */
  lemma {:induction false} CompletedLoopHadNoAbort<Task>(conn: Connector<Task>, projectKey: string,
                                                         vcsInstanceName: string, repositories: seq<RawRepo>)
    requires ProcessAll(conn, projectKey, vcsInstanceName, repositories).error == None
    ensures NoneAborts(conn, projectKey, vcsInstanceName, repositories)
    decreases |repositories|
  {
    if repositories != [] {
      var front := repositories[..|repositories| - 1];
      CompletedLoopHadNoAbort(conn, projectKey, vcsInstanceName, front);
      assert forall i :: 0 <= i < |front| ==> front[i] == repositories[i];
    }
  }

  /** The loop completes exactly when no repository raises anything but `HTTPError`. */
  lemma LoopCompletesIffNoneAborts<Task>(conn: Connector<Task>, projectKey: string, vcsInstanceName: string,
                                        repositories: seq<RawRepo>)
    ensures ProcessAll(conn, projectKey, vcsInstanceName, repositories).error == None
        <==> NoneAborts(conn, projectKey, vcsInstanceName, repositories)
  {
    if NoneAborts(conn, projectKey, vcsInstanceName, repositories) {
      TasksAreKeptTasks(conn, projectKey, vcsInstanceName, repositories);
    }
    if ProcessAll(conn, projectKey, vcsInstanceName, repositories).error == None {
      CompletedLoopHadNoAbort(conn, projectKey, vcsInstanceName, repositories);
    }
  }

  /** The first repository that raises anything but `HTTPError` ends the loop
      with that exception; the tasks of the repositories before it are dropped
      with the loop. */
  lemma FirstAbortEndsLoop<Task>(conn: Connector<Task>, projectKey: string, vcsInstanceName: string,
                                 repositories: seq<RawRepo>, k: nat)
    requires k < |repositories|
    requires NoneAborts(conn, projectKey, vcsInstanceName, repositories[..k])
    requires ProcessRepository(conn, projectKey, vcsInstanceName, repositories[k]).Aborted?
    ensures ProcessAll(conn, projectKey, vcsInstanceName, repositories).error
         == Some(ProcessRepository(conn, projectKey, vcsInstanceName, repositories[k]).error)
  {
    TasksAreKeptTasks(conn, projectKey, vcsInstanceName, repositories[..k]);
    assert repositories[..k + 1][..k] == repositories[..k];
    AbortIsFinal(conn, projectKey, vcsInstanceName, repositories, k + 1);
  }

  /** A repository whose lookup or export raised `HTTPError`, or whose commit is
      falsy, adds no task and does not stop the loop: the repositories after it
      are handled as if it were not listed, and their calls still happen. */
  lemma SkippedRepositoryContributesNothing<Task>(conn: Connector<Task>, projectKey: string, vcsInstanceName: string,
                                                  before: seq<RawRepo>, repository: RawRepo, after: seq<RawRepo>)
    requires ProcessRepository(conn, projectKey, vcsInstanceName, repository).NoCommit?
          || ProcessRepository(conn, projectKey, vcsInstanceName, repository).Skipped?
    requires ProcessAll(conn, projectKey, vcsInstanceName, before).error == None
    ensures ProcessAll(conn, projectKey, vcsInstanceName, before + [repository] + after).tasks
         == ProcessAll(conn, projectKey, vcsInstanceName, before + after).tasks
    ensures ProcessAll(conn, projectKey, vcsInstanceName, before + [repository] + after).error
         == ProcessAll(conn, projectKey, vcsInstanceName, before + after).error
    ensures ProcessAll(conn, projectKey, vcsInstanceName, before + [repository] + after).trace
         == ProcessAll(conn, projectKey, vcsInstanceName, before).trace
            + RepositoryCalls(conn, projectKey, vcsInstanceName, repository)
            + ProcessAll(conn, projectKey, vcsInstanceName, after).trace
  {
    assert [repository][..0] == [];
    ProcessAllAppend(conn, projectKey, vcsInstanceName, before, [repository]);
    ProcessAllAppend(conn, projectKey, vcsInstanceName, before + [repository], after);
    ProcessAllAppend(conn, projectKey, vcsInstanceName, before, after);
  }

  /** The commit lookup of `repository` raised `e`, or the lookup returned
      and the export raised `e`. */
  ghost predicate RaisedWhileHandling<Task>(conn: Connector<Task>, projectKey: string, vcsInstanceName: string,
                                            repository: RawRepo, e: PyException)
  {
    var lookup := conn.getLatestCommit(projectKey, repository.name);
    lookup == Raised(e) || (lookup.Ok? && conn.exportRepository(repository, lookup.value, vcsInstanceName) == Raised(e))
  }

  /** An `HTTPError` from the lookup or the export of one repository is
      caught: that repository adds no task, and the repositories after it are
      still looked up and handled as if it were not listed. */
  lemma HttpErrorSkipsRepository<Task>(conn: Connector<Task>, projectKey: string, vcsInstanceName: string,
                                       before: seq<RawRepo>, repository: RawRepo, after: seq<RawRepo>)
    requires RaisedWhileHandling(conn, projectKey, vcsInstanceName, repository, HTTPError)
    requires ProcessAll(conn, projectKey, vcsInstanceName, before).error == None
    ensures ProcessAll(conn, projectKey, vcsInstanceName, before + [repository] + after).tasks
         == ProcessAll(conn, projectKey, vcsInstanceName, before + after).tasks
    ensures ProcessAll(conn, projectKey, vcsInstanceName, before + [repository] + after).error
         == ProcessAll(conn, projectKey, vcsInstanceName, before + after).error
    ensures ProcessAll(conn, projectKey, vcsInstanceName, before + [repository] + after).trace
         == ProcessAll(conn, projectKey, vcsInstanceName, before).trace
            + RepositoryCalls(conn, projectKey, vcsInstanceName, repository)
            + ProcessAll(conn, projectKey, vcsInstanceName, after).trace
  {
    assert ProcessRepository(conn, projectKey, vcsInstanceName, repository) == Skipped;
    SkippedRepositoryContributesNothing(conn, projectKey, vcsInstanceName, before, repository, after);
  }

  /** Any other exception from the lookup or the export escapes the loop as
      itself, unless an earlier repository's exception already did. */
  lemma OtherErrorEndsLoop<Task>(conn: Connector<Task>, projectKey: string, vcsInstanceName: string,
                                 repositories: seq<RawRepo>, k: nat, e: PyException)
    requires k < |repositories|
    requires NoneAborts(conn, projectKey, vcsInstanceName, repositories[..k])
    requires RaisedWhileHandling(conn, projectKey, vcsInstanceName, repositories[k], e) && !e.HTTPError?
    ensures ProcessAll(conn, projectKey, vcsInstanceName, repositories).error == Some(e)
  {
    assert ProcessRepository(conn, projectKey, vcsInstanceName, repositories[k]) == Aborted(e);
    FirstAbortEndsLoop(conn, projectKey, vcsInstanceName, repositories, k);
  }

  /** Handling one repository looks its latest commit up once, by its name. */
  lemma RepositoryIsLookedUpByName<Task>(conn: Connector<Task>, projectKey: string, vcsInstanceName: string,
                                         repository: RawRepo)
    ensures CommitLookups(RepositoryCalls(conn, projectKey, vcsInstanceName, repository)) == [repository.name]
  {
    var lookup := Called(GetLatestCommit(projectKey, repository.name));
    match conn.getLatestCommit(projectKey, repository.name)
    case Raised(_) =>
      assert [lookup][1..] == [];
    case Ok(latestCommit) =>
      var exported := Called(ExportRepository(repository, latestCommit, vcsInstanceName));
      assert RepositoryCalls(conn, projectKey, vcsInstanceName, repository) == [lookup, exported];
      assert [lookup, exported][1..] == [exported];
      assert [exported][1..] == [];
      assert CommitLookups([exported]) == [];
  }

  /** The names of a listing, in order. */
  function Names(repositories: seq<RawRepo>): (names: seq<string>)
    ensures |names| == |repositories|
    ensures forall i :: 0 <= i < |repositories| ==> names[i] == repositories[i].name
    decreases |repositories|
  {
    if repositories == [] then []
    else Names(repositories[..|repositories| - 1]) + [repositories[|repositories| - 1].name]
  }

  /** When the loop completes, the latest commit of every listed repository
      was looked up, in listing order, with the repository's name as
      `repository_id`. */
  lemma {:induction false} EveryRepositoryIsLookedUpByName<Task>(conn: Connector<Task>, projectKey: string,
                                                                 vcsInstanceName: string, repositories: seq<RawRepo>)
    requires NoneAborts(conn, projectKey, vcsInstanceName, repositories)
    ensures CommitLookups(ProcessAll(conn, projectKey, vcsInstanceName, repositories).trace) == Names(repositories)
    decreases |repositories|
  {
    if repositories != [] {
      var front := repositories[..|repositories| - 1];
      var last := repositories[|repositories| - 1];
      assert forall i :: 0 <= i < |front| ==> front[i] == repositories[i];
      EveryRepositoryIsLookedUpByName(conn, projectKey, vcsInstanceName, front);
      TasksAreKeptTasks(conn, projectKey, vcsInstanceName, front);
      RepositoryIsLookedUpByName(conn, projectKey, vcsInstanceName, last);
      CommitLookupsAppend(ProcessAll(conn, projectKey, vcsInstanceName, front).trace,
                          RepositoryCalls(conn, projectKey, vcsInstanceName, last));
    }
  }

  /** The loop talks only to the connector. */
  lemma {:induction false} LoopOnlyCallsConnector<Task>(conn: Connector<Task>, projectKey: string,
                                                        vcsInstanceName: string, repositories: seq<RawRepo>)
    ensures OnlyConnectorCalls(ProcessAll(conn, projectKey, vcsInstanceName, repositories).trace)
    decreases |repositories|
  {
    if repositories != [] {
      LoopOnlyCallsConnector(conn, projectKey, vcsInstanceName, repositories[..|repositories| - 1]);
    }
  }

  /** The loop never yields more tasks than there are listed repositories. */
  lemma {:induction false} AtMostOneTaskPerRepository<Task>(conn: Connector<Task>, projectKey: string,
                                                            vcsInstanceName: string, repositories: seq<RawRepo>)
    ensures |ProcessAll(conn, projectKey, vcsInstanceName, repositories).tasks| <= |repositories|
    decreases |repositories|
  {
    if repositories != [] {
      AtMostOneTaskPerRepository(conn, projectKey, vcsInstanceName, repositories[..|repositories| - 1]);
    }
  }

  // ----- extract_project_information

  /** A failed listing raises out of the extraction before any report; an
      exception escaping the loop does too; otherwise exactly one report is
      posted, it is the last thing the extraction does, and it covers the
      whole listing. The extraction never sends a task message. */
  lemma ExtractionReports<Task>(conn: Connector<Task>, projectKey: string, vcsInstanceName: string,
                                backend: ActiveRepositories -> Delivery)
    ensures var x := Extract(conn, projectKey, vcsInstanceName, backend);
      && SentMessages(x.trace) == []
      && (conn.getRepos(projectKey).Raised? ==>
            x.result == Raised(conn.getRepos(projectKey).error) && x.trace == [Called(GetRepos(projectKey))])
      && (conn.getRepos(projectKey).Ok? ==>
            var listing := conn.getRepos(projectKey).value;
            && (x.result.Ok? <==> NoneAborts(conn, projectKey, vcsInstanceName, listing))
            && Reports(x.trace) == (if x.result.Ok? then [ReportBody(projectKey, vcsInstanceName, listing)] else [])
            && (x.result.Ok? ==> x.trace[|x.trace| - 1].ReportPosted?))
  {
    var listed := [Called(GetRepos(projectKey))];
    ConnectorCallsSendNothing(listed);
    if conn.getRepos(projectKey).Ok? {
      var listing := conn.getRepos(projectKey).value;
      var p := ProcessAll(conn, projectKey, vcsInstanceName, listing);
      LoopCompletesIffNoneAborts(conn, projectKey, vcsInstanceName, listing);
      LoopOnlyCallsConnector(conn, projectKey, vcsInstanceName, listing);
      ConnectorCallsSendNothing(p.trace);
      ReportsAppend(listed, p.trace);
      SentMessagesAppend(listed, p.trace);
      if p.error.None? {
        var body := ReportBody(projectKey, vcsInstanceName, listing);
        var report := [ReportPosted(body, backend(body))];
        ReportsAppend(listed + p.trace, report);
        SentMessagesAppend(listed + p.trace, report);
      }
    }
  }

  /** The report covers the whole listing, including repositories without a
      commit and those whose lookup failed: one entry per listed repository,
      in listing order, with the `str` of its id and its name. It never holds
      fewer entries than there are tasks. */
  lemma ReportCoversListing<Task>(conn: Connector<Task>, projectKey: string, vcsInstanceName: string,
                                  backend: ActiveRepositories -> Delivery)
    requires conn.getRepos(projectKey).Ok?
    requires Extract(conn, projectKey, vcsInstanceName, backend).result.Ok?
    ensures var listing := conn.getRepos(projectKey).value;
      var body := ReportBody(projectKey, vcsInstanceName, listing);
      && Reports(Extract(conn, projectKey, vcsInstanceName, backend).trace) == [body]
      && body.projectKey == projectKey && body.vcsInstanceName == vcsInstanceName
      && |body.repositories| == |listing|
      && |Extract(conn, projectKey, vcsInstanceName, backend).result.value| <= |body.repositories|
      && forall i :: 0 <= i < |listing| ==>
           body.repositories[i].name == listing[i].name && body.repositories[i].id == StrId(listing[i].id)
  {
    ExtractionReports(conn, projectKey, vcsInstanceName, backend);
    AtMostOneTaskPerRepository(conn, projectKey, vcsInstanceName, conn.getRepos(projectKey).value);
  }

  /** When no exception escapes the loop, `extract_project_information`
      returns exactly the exports of the listed repositories with a truthy
      commit, in listing order. */
  lemma ExtractReturnsKeptTasks<Task>(conn: Connector<Task>, projectKey: string, vcsInstanceName: string,
                                      backend: ActiveRepositories -> Delivery)
    requires conn.getRepos(projectKey).Ok?
    requires NoneAborts(conn, projectKey, vcsInstanceName, conn.getRepos(projectKey).value)
    ensures Extract(conn, projectKey, vcsInstanceName, backend).result
         == Ok(KeptTasks(conn, projectKey, vcsInstanceName, conn.getRepos(projectKey).value))
  {
    TasksAreKeptTasks(conn, projectKey, vcsInstanceName, conn.getRepos(projectKey).value);
  }

  /** An exception other than `HTTPError` from the lookup or the export of a
      listed repository, with none escaping before it, is raised out of
      `extract_project_information`, and no report is posted. */
  lemma ExtractRaisesEscapingError<Task>(conn: Connector<Task>, projectKey: string, vcsInstanceName: string,
                                         backend: ActiveRepositories -> Delivery, k: nat, e: PyException)
    requires conn.getRepos(projectKey).Ok? && k < |conn.getRepos(projectKey).value|
    requires NoneAborts(conn, projectKey, vcsInstanceName, conn.getRepos(projectKey).value[..k])
    requires RaisedWhileHandling(conn, projectKey, vcsInstanceName, conn.getRepos(projectKey).value[k], e)
    requires !e.HTTPError?
    ensures Extract(conn, projectKey, vcsInstanceName, backend).result == Raised(e)
    ensures Reports(Extract(conn, projectKey, vcsInstanceName, backend).trace) == []
  {
    OtherErrorEndsLoop(conn, projectKey, vcsInstanceName, conn.getRepos(projectKey).value, k, e);
    ExtractionReports(conn, projectKey, vcsInstanceName, backend);
  }

  // ----- send_tasks_to_celery_queue

  /** Dispatch only sends task messages. */
  lemma {:induction false} DispatchOnlySends<Task>(taskName: string, queueName: string, tasks: seq<Task>,
                                                   dump: Task -> string, broker: TaskMessage -> Option<PyException>)
    ensures OnlyTaskMessages(SendAll(taskName, queueName, tasks, dump, broker).sent)
    decreases |tasks|
  {
    if tasks != [] {
      DispatchOnlySends(taskName, queueName, tasks[..|tasks| - 1], dump, broker);
    }
  }

  /** When the broker accepts every message, dispatch sends exactly one
      message per task, in task order, each addressed to `taskName` on
      `queueName` with the single keyword argument `"repository"` holding the
      task's JSON. */
  lemma {:induction false} DispatchSendsEveryTask<Task>(taskName: string, queueName: string, tasks: seq<Task>,
                                                        dump: Task -> string, broker: TaskMessage -> Option<PyException>)
    requires forall i :: 0 <= i < |tasks| ==> broker(Message(taskName, queueName, dump, tasks[i])) == None
    ensures SendAll(taskName, queueName, tasks, dump, broker).error == None
    ensures |SendAll(taskName, queueName, tasks, dump, broker).sent| == |tasks|
    ensures forall i :: 0 <= i < |tasks| ==>
      SendAll(taskName, queueName, tasks, dump, broker).sent[i] == TaskSent(Message(taskName, queueName, dump, tasks[i]))
    decreases |tasks|
  {
    if tasks != [] {
      var front := tasks[..|tasks| - 1];
      assert forall i :: 0 <= i < |front| ==> front[i] == tasks[i];
      DispatchSendsEveryTask(taskName, queueName, front, dump, broker);
    }
  }

  /** A `send_task` that raises ends dispatch with that exception: the
      messages of the earlier tasks were sent, no later one is. */
  lemma DispatchStopsAtFirstFailure<Task>(taskName: string, queueName: string, tasks: seq<Task>, dump: Task -> string,
                                          broker: TaskMessage -> Option<PyException>, k: nat)
    requires k < |tasks|
    requires forall i :: 0 <= i < k ==> broker(Message(taskName, queueName, dump, tasks[i])) == None
    requires broker(Message(taskName, queueName, dump, tasks[k])).Some?
    ensures SendAll(taskName, queueName, tasks, dump, broker).error == broker(Message(taskName, queueName, dump, tasks[k]))
    ensures |SendAll(taskName, queueName, tasks, dump, broker).sent| == k
    ensures forall i :: 0 <= i < k ==>
      SendAll(taskName, queueName, tasks, dump, broker).sent[i] == TaskSent(Message(taskName, queueName, dump, tasks[i]))
  {
    var prefix := tasks[..k];
    assert forall i :: 0 <= i < k ==> prefix[i] == tasks[i];
    DispatchSendsEveryTask(taskName, queueName, prefix, dump, broker);
    assert tasks[..k + 1][..k] == prefix;
    SendAbortIsFinal(taskName, queueName, tasks, dump, broker, k + 1);
  }

  // ----- collect_repositories

  /** An unknown VCS instance name raises `KeyError` before anything is
      listed, reported or sent. */
  lemma UnknownInstanceFailsFirst<Config, Task>(projectKey: string, vcsInstanceName: string,
                                                vcsInstances: map<string, Config>,
                                                createClient: Config -> Result<Connector<Task>>, dump: Task -> string,
                                                backend: ActiveRepositories -> Delivery,
                                                broker: TaskMessage -> Option<PyException>,
                                                secretScannerTaskName: string, repositoryQueue: string)
    requires vcsInstanceName !in vcsInstances
    ensures Collect(projectKey, vcsInstanceName, vcsInstances, createClient, dump, backend, broker,
                    secretScannerTaskName, repositoryQueue) == Run(Raised(KeyError), [])
  {
  }

  /** In a run, the report is posted before any task message is sent, and
      there is at most one report. */
  lemma ReportPrecedesDispatch<Config, Task>(projectKey: string, vcsInstanceName: string,
                                             vcsInstances: map<string, Config>,
                                             createClient: Config -> Result<Connector<Task>>, dump: Task -> string,
                                             backend: ActiveRepositories -> Delivery,
                                             broker: TaskMessage -> Option<PyException>,
                                             secretScannerTaskName: string, repositoryQueue: string)
    ensures var trace := Collect(projectKey, vcsInstanceName, vcsInstances, createClient, dump, backend, broker,
                                 secretScannerTaskName, repositoryQueue).trace;
      && |Reports(trace)| <= 1
      && forall i, j :: 0 <= i < j < |trace| && trace[j].ReportPosted? ==> !trace[i].TaskSent?
  {
    if vcsInstanceName in vcsInstances && createClient(vcsInstances[vcsInstanceName]).Ok? {
      var conn := createClient(vcsInstances[vcsInstanceName]).value;
      var x := Extract(conn, projectKey, vcsInstanceName, backend);
      ExtractionReports(conn, projectKey, vcsInstanceName, backend);
      ExtractionSendsNothing(conn, projectKey, vcsInstanceName, backend);
      if x.result.Ok? {
        var d := SendAll(secretScannerTaskName, repositoryQueue, x.result.value, dump, broker);
        DispatchOnlySends(secretScannerTaskName, repositoryQueue, x.result.value, dump, broker);
        TaskMessagesAreSent(d.sent);
        ReportsAppend(x.trace, d.sent);
        SendsComeLast(x.trace, d.sent);
      }
    }
  }

  /** No event of an extraction is a task message. */
  lemma ExtractionSendsNothing<Task>(conn: Connector<Task>, projectKey: string, vcsInstanceName: string,
                                     backend: ActiveRepositories -> Delivery)
    ensures var x := Extract(conn, projectKey, vcsInstanceName, backend);
      forall i :: 0 <= i < |x.trace| ==> !x.trace[i].TaskSent?
  {
    if conn.getRepos(projectKey).Ok? {
      LoopOnlyCallsConnector(conn, projectKey, vcsInstanceName, conn.getRepos(projectKey).value);
    }
  }

  /** Appending only task messages to a log without any puts no message
      before a report. */
  lemma SendsComeLast(a: seq<Event>, b: seq<Event>)
    requires forall i :: 0 <= i < |a| ==> !a[i].TaskSent?
    requires OnlyTaskMessages(b)
    ensures forall i, j :: 0 <= i < j < |a + b| && (a + b)[j].ReportPosted? ==> !(a + b)[i].TaskSent?
  {
  }

  /** Once the client is built: a run whose extraction raises sends no task
      message; otherwise the run sends exactly the dispatch messages of the
      extracted tasks after the extraction's own events, and ends with the
      first exception `send_task` raises, if any. */
  lemma RunDispatchesExtractedTasks<Config, Task>(projectKey: string, vcsInstanceName: string,
                                                  vcsInstances: map<string, Config>,
                                                  createClient: Config -> Result<Connector<Task>>, dump: Task -> string,
                                                  backend: ActiveRepositories -> Delivery,
                                                  broker: TaskMessage -> Option<PyException>,
                                                  secretScannerTaskName: string, repositoryQueue: string)
    requires vcsInstanceName in vcsInstances && createClient(vcsInstances[vcsInstanceName]).Ok?
    ensures var conn := createClient(vcsInstances[vcsInstanceName]).value;
      var x := Extract(conn, projectKey, vcsInstanceName, backend);
      var run := Collect(projectKey, vcsInstanceName, vcsInstances, createClient, dump, backend, broker,
                         secretScannerTaskName, repositoryQueue);
      && (x.result.Raised? ==> run.result == Raised(x.result.error) && SentMessages(run.trace) == [] && |Reports(run.trace)| == 0)
      && (x.result.Ok? ==>
            var d := SendAll(secretScannerTaskName, repositoryQueue, x.result.value, dump, broker);
            && Reports(run.trace) == [ReportBody(projectKey, vcsInstanceName, conn.getRepos(projectKey).value)]
            && SentMessages(run.trace) == SentMessages(d.sent)
            && (run.result.Ok? <==> d.error.None?)
            && ((forall i :: 0 <= i < |x.result.value| ==>
                   broker(Message(secretScannerTaskName, repositoryQueue, dump, x.result.value[i])) == None) ==>
                && run.result == Ok(())
                && |SentMessages(run.trace)| == |x.result.value|
                && forall i :: 0 <= i < |x.result.value| ==>
                     SentMessages(run.trace)[i] == Message(secretScannerTaskName, repositoryQueue, dump, x.result.value[i])))
  {
    var conn := createClient(vcsInstances[vcsInstanceName]).value;
    var x := Extract(conn, projectKey, vcsInstanceName, backend);
    ExtractionReports(conn, projectKey, vcsInstanceName, backend);
    if x.result.Ok? {
      var d := SendAll(secretScannerTaskName, repositoryQueue, x.result.value, dump, broker);
      DispatchOnlySends(secretScannerTaskName, repositoryQueue, x.result.value, dump, broker);
      TaskMessagesAreSent(d.sent);
      ReportsAppend(x.trace, d.sent);
      SentMessagesAppend(x.trace, d.sent);
      if forall i :: 0 <= i < |x.result.value| ==>
           broker(Message(secretScannerTaskName, repositoryQueue, dump, x.result.value[i])) == None {
        DispatchSendsEveryTask(secretScannerTaskName, repositoryQueue, x.result.value, dump, broker);
      }
    }
  }
}
