/** The release steps: tag, hosted release, image build and push, and the
    deployment trigger. Each external call is a request appended to the
    orchestrator's trace; what the host answers comes from a response
    function fixed when the orchestrator is made. */
module Release {
  import opened Wrappers
  import opened Text
  import opened Inputs
  import opened Versions
  import opened Effects
  import opened Resolution

  /** `createRef` for `refs/tags/<tag>` at the current commit, the tag being
      the full or the minor one. */
  function TagRequest(context: Context, version: Version, full: bool): Request {
    var tag := if full then version.FullTag() else version.MinorTag();
    CreateRef(context.owner, context.repo, "refs/tags/" + tag, context.sha)
  }

  /** `createRelease` of a published release at the full tag, with generated
      notes. */
  function ReleaseRequest(context: Context, version: Version): Request {
    var tag := version.FullTag();
    CreateRelease(context.owner, context.repo, "Automatic release " + tag, tag, false, true, false)
  }

  /** `-t "<tag>"`. */
  function TagParam(tag: string): string {
    "-t \"" + tag + "\""
  }

  /** `docker build . ` followed by the tag parameters joined by spaces. */
  function BuildCommand(tags: seq<string>): string {
    "docker build . " + Join(seq(|tags|, i requires 0 <= i < |tags| => TagParam(tags[i])), " ")
  }

  function PushCommand(tag: string): string {
    "docker push " + tag
  }

  /** One push per tag, in the order of the tags. */
  function PushRequests(tags: seq<string>): (pushes: seq<Request>)
    ensures |pushes| == |tags|
    ensures forall i :: 0 <= i < |tags| ==> pushes[i] == Shell(PushCommand(tags[i]))
  {
    seq(|tags|, i requires 0 <= i < |tags| => Shell(PushCommand(tags[i])))
  }

  /** The build command for an image's tags names the minor-tag reference,
      and the full-tag reference after it exactly when there is one. */
  lemma BuildCommandOfImage(image: Image, version: Version)
    ensures BuildCommand(image.AsTags(version))
         == "docker build . " + TagParam(image.Reference(version.MinorTag()))
            + (if IsPositive(version.build) then " " + TagParam(image.Reference(version.FullTag())) else "")
  {
    var tags := image.AsTags(version);
    var params := seq(|tags|, i requires 0 <= i < |tags| => TagParam(tags[i]));
    if |tags| == 2 {
      assert params[1..] == [params[1]];
      assert Join(params, " ") == params[0] + " " + Join([params[1]], " ");
    } else {
      assert params == [params[0]];
    }
  }

  /** Where the deployment is triggered: repository, workflow and reference,
      all three read from the inputs. */
  datatype DeploymentTarget = DeploymentTarget(repo: string, workflow: string, ref: string)

  /** The three `getInput` calls of `dispatchDeploymentWorkflow`, in order;
      the first one that fails decides the error. */
  function GetDeploymentTarget(env: map<string, string>): (r: Result<DeploymentTarget, string>)
    ensures r.Success? <==>
      && GetInput(env, "deployment-repo").Success?
      && GetInput(env, "deployment-workflow").Success?
      && GetInput(env, "deployment-repo-reference").Success?
    ensures r.Success? ==> r.value == DeploymentTarget(
      GetInput(env, "deployment-repo").value,
      GetInput(env, "deployment-workflow").value,
      GetInput(env, "deployment-repo-reference").value)
    ensures r.Failure? && GetInput(env, "deployment-repo").Failure? ==>
      r.error == GetInput(env, "deployment-repo").error
  {
    var repo := GetInput(env, "deployment-repo");
    if repo.Failure? then Failure(repo.error)
    else
      var workflow := GetInput(env, "deployment-workflow");
      if workflow.Failure? then Failure(workflow.error)
      else
        var ref := GetInput(env, "deployment-repo-reference");
        if ref.Failure? then Failure(ref.error)
        else Success(DeploymentTarget(repo.value, workflow.value, ref.value))
  }

  /** The deployment trigger: nothing when the configuration is incomplete,
      otherwise one `createWorkflowDispatch` naming this repository and the
      full tag. */
  function DispatchRequests(context: Context, env: map<string, string>, version: Version): (rs: seq<Request>)
    ensures |rs| <= 1
    ensures |rs| == 1 <==> GetDeploymentTarget(env).Success?
    ensures |rs| == 1 ==>
      var target := GetDeploymentTarget(env).value;
      rs[0] == CreateWorkflowDispatch(context.owner, target.repo, target.workflow, target.ref,
                                      context.repo, version.FullTag())
  {
    match GetDeploymentTarget(env)
    case Success(target) =>
      [CreateWorkflowDispatch(context.owner, target.repo, target.workflow, target.ref,
                              context.repo, version.FullTag())]
    case Failure(_) => []
  }

  /** The release helper's view of its host: the repository context, the
      environment, the answers the host gives, and the requests issued so
      far, oldest first. */
  class Orchestrator {
    const context: Context
    const env: map<string, string>
    /** The answer to the request issued at a given position of the trace. */
    const respond: (nat, Request) -> Response
    var requests: seq<Request>

    constructor (context: Context, env: map<string, string>, respond: (nat, Request) -> Response)
      ensures this.context == context && this.env == env && this.respond == respond
      ensures requests == []
    {
      this.context := context;
      this.env := env;
      this.respond := respond;
      requests := [];
    }

    /** One external call (`run_shell` or a service request): recorded, then
        answered. */
    method Issue(request: Request) returns (response: Response)
      modifies this
      ensures requests == old(requests) + [request]
      ensures response == respond(|old(requests)|, request)
    {
      response := respond(|requests|, request);
      requests := requests + [request];
    }

    /** `getGitVersion`: runs the describe query and parses its output, or
        falls back to 0.0.1 when it fails. */
    method ResolveGitVersion() returns (v: Version)
      modifies this
      ensures requests == old(requests) + [Shell(DescribeCommand)]
      ensures v == GitVersion(respond(|old(requests)|, Shell(DescribeCommand)))
      ensures respond(|old(requests)|, Shell(DescribeCommand)).Failed? ==> v == FallbackVersion
    {
      var outcome := Issue(Shell(DescribeCommand));
      v := GitVersion(outcome);
    }

    /** `createGithubTag`: one `createRef`; its failure is swallowed. */
    method CreateGithubTag(version: Version, full: bool := false)
      modifies this
      ensures requests == old(requests) + [CreateRef(context.owner, context.repo,
        "refs/tags/" + (if full then version.FullTag() else version.MinorTag()), context.sha)]
    {
      var _ := Issue(TagRequest(context, version, full));
    }

    /** `createGithubRelease`: the full tag's `createRef`, then `createRelease`
        at that tag whatever the first call answered. */
    method CreateGithubRelease(version: Version)
      modifies this
      ensures requests == old(requests) + [
        CreateRef(context.owner, context.repo, "refs/tags/" + version.FullTag(), context.sha),
        CreateRelease(context.owner, context.repo, "Automatic release " + version.FullTag(),
                      version.FullTag(), false, true, false)]
    {
      CreateGithubTag(version, true);
      var _ := Issue(ReleaseRequest(context, version));
    }

    /** `buildDockerImage`: a single build command carrying every tag. */
    method BuildDockerImage(tags: seq<string>)
      modifies this
      ensures requests == old(requests) + [Shell(BuildCommand(tags))]
    {
      var _ := Issue(Shell(BuildCommand(tags)));
    }

    /** `pushDockerImage`: one push per tag, in order, each attempted
        whatever the earlier ones answered. */
    method PushDockerImage(tags: seq<string>)
      modifies this
      ensures requests == old(requests) + PushRequests(tags)
    {
      var i := 0;
      while i < |tags|
        invariant 0 <= i <= |tags|
        invariant requests == old(requests) + PushRequests(tags[..i])
      {
        var _ := Issue(Shell(PushCommand(tags[i])));
        assert PushRequests(tags[..i + 1]) == PushRequests(tags[..i]) + [Shell(PushCommand(tags[i]))];
        i := i + 1;
      }
      assert tags[..i] == tags;
    }

    /** `releaseDocker`: build with the image's tags, then push the same
        tags, the pushes issued even when the build failed. */
    method ReleaseDocker(image: Image, version: Version)
      modifies this
      ensures requests == old(requests) + [Shell(BuildCommand(image.AsTags(version)))]
                                        + PushRequests(image.AsTags(version))
    {
      var tags := image.AsTags(version);
      BuildDockerImage(tags);
      PushDockerImage(tags);
    }

    /** `dispatchDeploymentWorkflow`: reads the deployment configuration and
        triggers the workflow; missing configuration and a failed request
        are both swallowed. */
    method DispatchDeploymentWorkflow(version: Version)
      modifies this
      ensures requests == old(requests) + DispatchRequests(context, env, version)
    {
      var target := GetDeploymentTarget(env);
      if target.Success? {
        var _ := Issue(CreateWorkflowDispatch(context.owner, target.value.repo, target.value.workflow,
                                              target.value.ref, context.repo, version.FullTag()));
      }
    }
  }
}
