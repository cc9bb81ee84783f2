/** Concrete collection runs, worked out against the model. */
module CollectorScenarios {
  import opened Python
  import opened VcsConnector
  import opened Model
  import opened RepositoryCollector
  import opened CollectorProperties

  /** The backend accepts every report. */
  function Accepting(body: ActiveRepositories): Delivery {
    Delivered
  }

  /** A connector whose task for a repository is the repository's name. */
  function NamingConnector(listing: Result<seq<RawRepo>>, commits: string -> Result<Option<string>>): Connector<string>
  {
    Connector(
      (projectKey: string) => listing,
      (projectKey: string, repositoryId: string) => commits(repositoryId),
      (repository: RawRepo, latestCommit: Option<string>, vcsInstanceName: string) => Ok(repository.name))
  }

  // ----- A has commit "abc", B has no commits, C has commit "def"

  function ListingABC(): seq<RawRepo> {
    [RawRepo(IntId(1), "A"), RawRepo(IntId(2), "B"), RawRepo(IntId(3), "C")]
  }

  function CommitsABC(repositoryId: string): Result<Option<string>> {
    if repositoryId == "A" then Ok(Some("abc"))
    else if repositoryId == "C" then Ok(Some("def"))
    else Ok(None)
  }

  function ConnectorABC(): Connector<string> {
    NamingConnector(Ok(ListingABC()), CommitsABC)
  }

  lemma OutcomesABC()
    ensures ProcessRepository(ConnectorABC(), "P1", "vcs", ListingABC()[0]) == Kept("A")
    ensures ProcessRepository(ConnectorABC(), "P1", "vcs", ListingABC()[1]) == NoCommit
    ensures ProcessRepository(ConnectorABC(), "P1", "vcs", ListingABC()[2]) == Kept("C")
  {
    var conn := ConnectorABC();
    assert "B" != "A" && "B" != "C" && "C" != "A";
    assert CommitsABC("A") == Ok(Some("abc")) && CommitsABC("B") == Ok(None) && CommitsABC("C") == Ok(Some("def"));
    assert conn.getLatestCommit("P1", "A") == Ok(Some("abc")) && Truthy(Some("abc"));
    assert conn.getLatestCommit("P1", "B") == Ok(None) && !Truthy(None);
    assert conn.getLatestCommit("P1", "C") == Ok(Some("def")) && Truthy(Some("def"));
  }

  lemma TasksABC()
    ensures ProcessAll(ConnectorABC(), "P1", "vcs", ListingABC()).error == None
    ensures ProcessAll(ConnectorABC(), "P1", "vcs", ListingABC()).tasks == ["A", "C"]
  {
    var conn, listing := ConnectorABC(), ListingABC();
    OutcomesABC();
    TasksAreKeptTasks(conn, "P1", "vcs", listing);
    assert listing[1..][1..][1..] == [];
    assert KeptTasks(conn, "P1", "vcs", listing[1..][1..]) == ["C"];
    assert KeptTasks(conn, "P1", "vcs", listing[1..]) == ["C"];
  }

  lemma ReportABC()
    ensures ExtractRepositoryIdAndName(ListingABC())
         == [SimpleRepository("1", "A"), SimpleRepository("2", "B"), SimpleRepository("3", "C")]
  {
    assert StrId(IntId(1)) == "1" && StrId(IntId(2)) == "2" && StrId(IntId(3)) == "3";
    var reported := ExtractRepositoryIdAndName(ListingABC());
    assert reported == [reported[0], reported[1], reported[2]];
  }

  /** Project P1 lists A (commit "abc"), B (no commits) and C (commit "def"):
      two tasks, for A and C, and a report that lists all three. */
  lemma RepositoryWithoutCommitsIsReportedButNotScanned()
    ensures var x := Extract(ConnectorABC(), "P1", "vcs", Accepting);
      && x.result == Ok(["A", "C"])
      && Reports(x.trace) == [ActiveRepositories("P1", [SimpleRepository("1", "A"), SimpleRepository("2", "B"),
                                                        SimpleRepository("3", "C")], "vcs")]
  {
    TasksABC();
    ReportABC();
    ExtractionReports(ConnectorABC(), "P1", "vcs", Accepting);
  }

  // ----- D's commit lookup raises HTTPError, E has commit "xyz"

  function ListingDE(): seq<RawRepo> {
    [RawRepo(TextId("d"), "D"), RawRepo(TextId("e"), "E")]
  }

  function CommitsDE(repositoryId: string): Result<Option<string>> {
    if repositoryId == "D" then Raised(HTTPError) else Ok(Some("xyz"))
  }

  function ConnectorDE(): Connector<string> {
    NamingConnector(Ok(ListingDE()), CommitsDE)
  }

  lemma TasksDE()
    ensures NoneAborts(ConnectorDE(), "P", "vcs", ListingDE())
    ensures ProcessAll(ConnectorDE(), "P", "vcs", ListingDE()).error == None
    ensures ProcessAll(ConnectorDE(), "P", "vcs", ListingDE()).tasks == ["E"]
  {
    var conn, listing := ConnectorDE(), ListingDE();
    assert "E" != "D";
    assert CommitsDE("D") == Raised(HTTPError) && CommitsDE("E") == Ok(Some("xyz"));
    assert conn.getLatestCommit("P", "D") == Raised(HTTPError);
    assert conn.getLatestCommit("P", "E") == Ok(Some("xyz")) && Truthy(Some("xyz"));
    assert ProcessRepository(conn, "P", "vcs", listing[0]) == Skipped;
    assert ProcessRepository(conn, "P", "vcs", listing[1]) == Kept("E");
    TasksAreKeptTasks(conn, "P", "vcs", listing);
    assert listing[1..][1..] == [];
    assert KeptTasks(conn, "P", "vcs", listing[1..]) == ["E"];
  }

  lemma LookupsDE()
    ensures CommitLookups(Extract(ConnectorDE(), "P", "vcs", Accepting).trace) == ["D", "E"]
  {
    var conn, listing := ConnectorDE(), ListingDE();
    TasksDE();
    EveryRepositoryIsLookedUpByName(conn, "P", "vcs", listing);
    assert Names(listing) == ["D", "E"];
    var p := ProcessAll(conn, "P", "vcs", listing);
    var listed := [Called(GetRepos("P"))];
    var body := ReportBody("P", "vcs", listing);
    var posted := [ReportPosted(body, Delivered)];
    assert CommitLookups(listed) == [] && CommitLookups(posted) == [];
    CommitLookupsAppend(listed, p.trace);
    CommitLookupsAppend(listed + p.trace, posted);
  }

  /** D's commit lookup raises `HTTPError` and E's returns "xyz": only E
      becomes a task, E's lookup still happens, and both are reported. */
  lemma FailedLookupIsSkippedAndReported()
    ensures var x := Extract(ConnectorDE(), "P", "vcs", Accepting);
      && x.result == Ok(["E"])
      && CommitLookups(x.trace) == ["D", "E"]
      && Reports(x.trace) == [ActiveRepositories("P", [SimpleRepository("d", "D"), SimpleRepository("e", "E")], "vcs")]
  {
    TasksDE();
    LookupsDE();
    ExtractionReports(ConnectorDE(), "P", "vcs", Accepting);
    var reported := ExtractRepositoryIdAndName(ListingDE());
    assert reported == [reported[0], reported[1]];
  }

  // ----- the listing of P2 raises

  /** Listing project P2 raises: the exception surfaces, nothing is reported
      and no task message is sent. */
  lemma FailedListingSurfaces()
    ensures var conn := NamingConnector(Raised(RequestError), CommitsABC);
      var run := Collect("P2", "vcs", map["vcs" := 0], (config: int) => Ok(conn), (task: string) => task,
                         Accepting, (message: TaskMessage) => None, "scan", "repositories");
      && run.result == Raised(RequestError)
      && Reports(run.trace) == []
      && SentMessages(run.trace) == []
  {
    var conn := NamingConnector(Raised(RequestError), CommitsABC);
    ExtractionReports(conn, "P2", "vcs", Accepting);
  }
}
