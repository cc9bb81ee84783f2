/** The payload types of the active-repositories report. */
module Model {

  /** One discovered repository as the backend inventory records it. */
  datatype SimpleRepository = SimpleRepository(id: string, name: string)

  /** Everything currently visible in one project of one VCS instance. */
  datatype ActiveRepositories = ActiveRepositories(
    projectKey: string,
    repositories: seq<SimpleRepository>,
    vcsInstanceName: string)
}
