/** Whole runs of the release helper against hosts that answer in given
    ways, stated as what ends up requested. */
module Scenarios {
  import opened Wrappers
  import opened Text
  import opened Versions
  import opened Effects
  import opened Resolution
  import opened Release

  /** A host on which every call fails. */
  function FailEverything(k: nat, r: Request): Response {
    Failed("exit code 1")
  }

  /** A host on which the describe query reports seven commits after tag
      1.4 and every other call fails. */
  function DescribeOnly(k: nat, r: Request): Response {
    if r == Shell(DescribeCommand) then Completed("1.4-7-gabc123\n") else Failed("exit code 1")
  }

  /** The describe output `1.4-7-gabc123` gives version (1, 4, 7). */
  lemma DescribedVersion()
    ensures ParseDescribe("1.4-7-gabc123\n") == Version(Str("1"), Str("4"), Str("7"))
  {
    var out := "1" + "." + "4" + "-" + "7" + "-g" + "abc123" + "\n";
    assert out == "1.4-7-gabc123\n";
    DescribeWithDistance("1", "4", "7", "abc123");
  }

  /** Version (1, 4, 7) on registry `reg` for image `api` has the minor and
      the full tag. */
  lemma DescribedVersionTags()
    ensures Image("reg", "api").AsTags(Version(Str("1"), Str("4"), Str("7")))
         == ["reg/api:1.4", "reg/api:1.4.7"]
  {
    var v := Version(Str("1"), Str("4"), Str("7"));
    assert IsPositive(v.build) by {
      TrimUnchanged("7");
      assert DigitsValue("7") == 7;
    }
    var tags := Image("reg", "api").AsTags(v);
    assert |tags| == 2;
    assert tags[0] == "reg" + "/" + "api" + ":" + ("1" + "." + "4");
    assert tags[1] == "reg" + "/" + "api" + ":" + ("1" + "." + "4" + "." + "7");
    assert "reg" + "/" + "api" + ":" + ("1" + "." + "4") == "reg/api:1.4";
    assert "reg" + "/" + "api" + ":" + ("1" + "." + "4" + "." + "7") == "reg/api:1.4.7";
  }

  /** The fallback version 0.0.1 on registry `reg` for image `api`. */
  lemma FallbackVersionTags()
    ensures Image("reg", "api").AsTags(FallbackVersion) == ["reg/api:0.0", "reg/api:0.0.1"]
  {
    var v := FallbackVersion;
    assert NatToString(0) == "0" && NatToString(1) == "1";
    var tags := Image("reg", "api").AsTags(v);
    assert |tags| == 2;
    assert tags[0] == "reg" + "/" + "api" + ":" + ("0" + "." + "0");
    assert tags[1] == "reg" + "/" + "api" + ":" + ("0" + "." + "0" + "." + "1");
    assert "reg" + "/" + "api" + ":" + ("0" + "." + "0") == "reg/api:0.0";
    assert "reg" + "/" + "api" + ":" + ("0" + "." + "0" + "." + "1") == "reg/api:0.0.1";
  }

  /** The requests of an image release with two tags. */
  lemma TwoTagRequests(first: string, second: string)
    ensures [Shell(BuildCommand([first, second]))] + PushRequests([first, second]) == [
      Shell("docker build . -t \"" + first + "\" -t \"" + second + "\""),
      Shell("docker push " + first),
      Shell("docker push " + second)]
  {
    var tags := [first, second];
    var params := seq(|tags|, i requires 0 <= i < |tags| => TagParam(tags[i]));
    assert params == [TagParam(first), TagParam(second)];
    assert params[1..] == [TagParam(second)];
    assert Join(params, " ") == TagParam(first) + " " + TagParam(second);
    assert BuildCommand(tags) == "docker build . " + TagParam(first) + " " + TagParam(second);
    assert "docker build . " + TagParam(first) + " " + TagParam(second)
        == "docker build . -t \"" + first + "\" -t \"" + second + "\"";
    assert PushRequests(tags) == [Shell(PushCommand(first)), Shell(PushCommand(second))];
  }

  /** Tag resolution followed by an image release, every docker command
      failing: the build and both pushes are still requested. */
  method DescribedRelease() returns (version: Version, issued: seq<Request>)
    ensures version == Version(Str("1"), Str("4"), Str("7"))
    ensures issued == [
      Shell(DescribeCommand),
      Shell(BuildCommand(["reg/api:1.4", "reg/api:1.4.7"])),
      Shell(PushCommand("reg/api:1.4")),
      Shell(PushCommand("reg/api:1.4.7"))]
  {
    var host := new Orchestrator(Context("acme", "api", "c0ffee"), map[], DescribeOnly);
    version := ResolveOnDescribeHost(host);
    host.ReleaseDocker(Image("reg", "api"), version);
    issued := host.requests;
    DescribedReleaseRequests(issued);
  }

  /** The requests of the described release, tag by tag. */
  lemma DescribedReleaseRequests(issued: seq<Request>)
    requires var tags := Image("reg", "api").AsTags(Version(Str("1"), Str("4"), Str("7")));
      issued == [Shell(DescribeCommand)] + [Shell(BuildCommand(tags))] + PushRequests(tags)
    ensures issued == [
      Shell(DescribeCommand),
      Shell(BuildCommand(["reg/api:1.4", "reg/api:1.4.7"])),
      Shell(PushCommand("reg/api:1.4")),
      Shell(PushCommand("reg/api:1.4.7"))]
  {
    DescribedVersionTags();
  }

  /** Tag resolution on the host answering `1.4-7-gabc123`. */
  method ResolveOnDescribeHost(host: Orchestrator) returns (version: Version)
    requires host.respond == DescribeOnly && host.requests == []
    modifies host
    ensures host.requests == [Shell(DescribeCommand)]
    ensures version == Version(Str("1"), Str("4"), Str("7"))
  {
    version := host.ResolveGitVersion();
    DescribedVersion();
  }

  /** Without tag history the describe query fails; the fallback 0.0.1 has a
      positive build, so both its tags are built and pushed. */
  method ReleaseWithoutTagHistory() returns (version: Version, issued: seq<Request>)
    ensures version == FallbackVersion
    ensures issued == [
      Shell(DescribeCommand),
      Shell(BuildCommand(["reg/api:0.0", "reg/api:0.0.1"])),
      Shell(PushCommand("reg/api:0.0")),
      Shell(PushCommand("reg/api:0.0.1"))]
  {
    var host := new Orchestrator(Context("acme", "api", "c0ffee"), map[], FailEverything);
    version := host.ResolveGitVersion();
    FallbackVersionTags();
    host.ReleaseDocker(Image("reg", "api"), version);
    issued := host.requests;
  }

  /** Creating a release when the tag request fails: the release request is
      still made, at the tag the failed request named. */
  method ReleaseAfterFailedTag(version: Version) returns (issued: seq<Request>)
    ensures |issued| == 2 && issued[0].CreateRef? && issued[1].CreateRelease?
    ensures issued[0].ref == "refs/tags/" + issued[1].tagName
    ensures issued[1].tagName == version.FullTag()
    ensures issued[1].name == "Automatic release " + version.FullTag()
    ensures !issued[1].draft && !issued[1].prerelease && issued[1].generateReleaseNotes
  {
    var host := new Orchestrator(Context("acme", "api", "c0ffee"), map[], FailEverything);
    host.CreateGithubRelease(version);
    issued := host.requests;
  }

  /** The requests of a full release run depend on the host only through
      its answer to the describe query: two hosts that give the same answer
      to it see exactly the same requests, whatever they answer to every
      later call. */
  method ReleaseIndependentOfLaterAnswers(context: Context, env: map<string, string>, image: Image,
                                          respond: (nat, Request) -> Response,
                                          respond': (nat, Request) -> Response)
    returns (issued: seq<Request>, issued': seq<Request>)
    requires respond(0, Shell(DescribeCommand)) == respond'(0, Shell(DescribeCommand))
    ensures issued == issued'
    ensures |issued| == 1 + 2 + |image.AsTags(GitVersion(respond(0, Shell(DescribeCommand))))| + 1
                        + |DispatchRequests(context, env, GitVersion(respond(0, Shell(DescribeCommand))))|
  {
    issued := Run(context, env, image, respond);
    issued' := Run(context, env, image, respond');
  }

  /** A full release run on a fresh orchestrator: tag resolution, the hosted
      release, the image and the deployment trigger. */
  method Run(context: Context, env: map<string, string>, image: Image, respond: (nat, Request) -> Response)
    returns (issued: seq<Request>)
    ensures var version := GitVersion(respond(0, Shell(DescribeCommand)));
      issued == [Shell(DescribeCommand)] + [TagRequest(context, version, true), ReleaseRequest(context, version)]
                + [Shell(BuildCommand(image.AsTags(version)))] + PushRequests(image.AsTags(version))
                + DispatchRequests(context, env, version)
  {
    var host := new Orchestrator(context, env, respond);
    var version := host.ResolveGitVersion();
    var release := [TagRequest(context, version, true), ReleaseRequest(context, version)];
    host.CreateGithubRelease(version);
    assert host.requests == [Shell(DescribeCommand)] + release;
    host.ReleaseDocker(image, version);
    host.DispatchDeploymentWorkflow(version);
    issued := host.requests;
  }

  /** The describe answer does matter: without tag history the image gets
      the fallback's tags, with the described tag it gets that version's. */
  lemma DescribeAnswerMatters(error: string)
    ensures Image("reg", "api").AsTags(GitVersion(Failed(error)))
         != Image("reg", "api").AsTags(GitVersion(Completed("1.4-7-gabc123\n")))
  {
    DescribedVersion();
    DescribedVersionTags();
    FallbackVersionTags();
    assert "reg/api:0.0"[8] != "reg/api:1.4"[8];
  }
}
