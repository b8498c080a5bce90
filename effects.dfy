/** The external calls the release helper makes, as requests issued to its
    host, and the host's answers. */
module Effects {

  /** The current repository and commit, supplied by the host. */
  datatype Context = Context(owner: string, repo: string, sha: string)

  /** One external call: a shell command, or one of the three requests to
      the release-hosting service. */
  datatype Request =
    | Shell(command: string)
    | CreateRef(owner: string, repo: string, ref: string, sha: string)
    | CreateRelease(owner: string, repo: string, name: string, tagName: string,
                    draft: bool, generateReleaseNotes: bool, prerelease: bool)
    | CreateWorkflowDispatch(owner: string, repo: string, workflowId: string, ref: string,
                             updatedService: string, version: string)

  /** A call either completes, with the command's standard output (empty for
      service requests), or fails with an error text. */
  datatype Response = Completed(stdout: string) | Failed(error: string)
}
