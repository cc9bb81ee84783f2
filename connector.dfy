/** The VCS connector as the collector sees it: the raw repository records a
    provider lists, and the three calls the collector makes on a connector.
    The provider-specific connectors are not part of this model; a connector
    is an oracle that says, for each argument, what the call returns or raises. */
module VcsConnector {
  import opened Python

  /** The `id` of a raw repository record: providers give a JSON number or a JSON string. */
  datatype RawId = IntId(n: int) | TextId(s: string)

  /** A record of the listing `get_repos` returns. The collector reads only
      its `"id"` and `"name"` keys; the record as a whole is passed on to
      `export_repository`. */
  datatype RawRepo = RawRepo(id: RawId, name: string)

  /** `str(repo["id"])`: a string id is kept as it is, an int id is written in
      decimal, so that the int can be read back from it. */
  function StrId(id: RawId): (s: string)
    ensures id.TextId? ==> s == id.s
    ensures id.IntId? ==> IsIntLiteral(s) && ParseInt(s) == id.n
  {
    match id
    case IntId(n) => IntToStrRoundTrip(n); IntToStr(n)
    case TextId(s) => s
  }

  /** Two int ids are written alike by `str` exactly when they are equal. */
  lemma StrIdKeepsIntIdsApart(a: RawId, b: RawId)
    requires a.IntId? && b.IntId?
    ensures StrId(a) == StrId(b) <==> a == b
  {
    IntToStrInjective(a.n, b.n);
  }

  /** A connector: `get_repos(project_key)`,
      `get_latest_commit(project_key=..., repository_id=...)` and
      `export_repository(repository, latest_commit, vcs_instance_name)`, each
      either returning its value or raising. `Task` is the task descriptor
      (`Repository`) a connector builds; the collector never looks inside it. */
  datatype Connector<Task> = Connector(
    getRepos: string -> Result<seq<RawRepo>>,
    getLatestCommit: (string, string) -> Result<Option<string>>,
    exportRepository: (RawRepo, Option<string>, string) -> Result<Task>)

  /** A call made on a connector, with its arguments. */
  datatype Call =
    | GetRepos(projectKey: string)
    | GetLatestCommit(projectKey: string, repositoryId: string)
    | ExportRepository(repository: RawRepo, latestCommit: Option<string>, vcsInstanceName: string)
}
