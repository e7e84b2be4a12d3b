/** client/install_deployment.go: re-creating the latest successful deployments of one
    environment on another, after a confirmation, with a black list of app servers read from a
    file and a fixed black list of runtimes. Every failure is fatal. */
module Install {
  import opened Wrappers
  import opened Text
  import opened Api
  import ClientUtil
  import Create
  import Promote
  import DeploymentFilter

  /** The options of an installation; `blacklist` is the path of the black-list file. */
  datatype InstallOptions = InstallOptions(
    environment: string,
    deploymentDate: string,
    executeShakedownTest: bool,
    wait: bool,
    maxWaitTime: int,
    fromEnvironment: string,
    blacklist: string)

  const FilterHead: string := "[{\"name\":\"Environment\",\"comp\":\"eq\",\"val\":\""
  const FilterTail: string := "\"},{\"name\":\"Latest deployment job for App Server and Env\",\"comp\":\"eq\",\"val\":\"true\"}]"

  /** The filter for the latest deployment of every app server in the source environment: the
      environment sits between a fixed head and a fixed tail. */
  function RawFilter(fromEnvironment: string): (f: string)
    ensures |f| == |FilterHead| + |fromEnvironment| + |FilterTail|
    ensures f[..|FilterHead|] == FilterHead
    ensures f[|FilterHead|..|FilterHead| + |fromEnvironment|] == fromEnvironment
    ensures f[|FilterHead| + |fromEnvironment|..] == FilterTail
  {
    FilterHead + fromEnvironment + FilterTail
  }

  /** The filter joined from its three parts. */
  method BuildFilter(fromEnvironment: string) returns (filter: string)
    ensures filter == RawFilter(fromEnvironment)
  {
    var parts := [FilterHead, fromEnvironment, FilterTail];
    filter := Join(parts, "");
    assert parts == [FilterHead] + [fromEnvironment] + [FilterTail];
    assert Join([FilterHead, fromEnvironment], "") == FilterHead + "" + fromEnvironment by {
      assert [FilterHead, fromEnvironment][..1] == [FilterHead];
    }
    assert parts[..2] == [FilterHead, fromEnvironment];
  }

  /** The runtimes that are never installed. */
  const RuntimeBlacklist: seq<string> := ["Kubernetes", "Kube_helm"]

  /** The black list of app servers: none without a file, the file's lines otherwise, and a
      fatal error when the file cannot be read (`file` is the outcome of reading it). */
  function BlacklistServers(path: string, file: Result<string>): (r: Result<seq<string>>)
    ensures path == "" ==> r == Ok([])
    ensures path != "" && file.Err? ==> r == Err("Error reading file blacklist: " + file.msg)
    ensures path != "" && file.Ok? ==> r.Ok? && Join(r.value, "\n") == file.value
                                       && forall k :: 0 <= k < |r.value| ==> '\n' !in r.value[k]
  {
    if path == "" then Ok([])
    else if file.Err? then Err("Error reading file blacklist: " + file.msg)
    else
      JoinSplit(file.value, '\n');
      Ok(Split(file.value, '\n'))
  }

  /** The whole installation. The answer to the confirmation question is `confirmed`. */
  function InstallSpec(server: Server, h0: seq<Call>, o: InstallOptions, file: Result<string>, confirmed: bool)
    : Create.Run<Result<seq<Deployment>>>
  {
    var violations := Promote.EnvironmentViolations(o.environment, o.fromEnvironment);
    if violations != [] then Create.Run(Err("Error command validation: " + Join(violations, ", ")), h0)
    else
      var h1 := h0 + [GetFiltered(RawFilter(o.fromEnvironment))];
      var answer := server.deployments(h1);
      if answer.Err? then Create.Run(Err("Error rest call: " + answer.msg), h1)
      else if answer.value == [] then Create.Run(Err(Create.NoSourceMessage(o.fromEnvironment)), h1)
      else
        var servers := BlacklistServers(o.blacklist, file);
        if servers.Err? then Create.Run(Err(servers.msg), h1)
        else if !confirmed then Create.Run(Ok([]), h1)
        else
          var survivors := Promote.Survivors(answer.value, servers.value, RuntimeBlacklist);
          var batch := Promote.CreateEach(server, h1, survivors, o.environment, o.deploymentDate);
          if batch.err.Some? then Create.Run(Err("Error Create Deployment: " + batch.err.value), batch.history)
          else Create.Run(Ok(batch.deployments), batch.history)
  }

  /** InstallDeployment; a fatal error is the `Err` result. */
  method InstallDeployment(server: Server, h0: seq<Call>, o: InstallOptions, file: Result<string>, confirmed: bool)
    returns (r: Result<seq<Deployment>>, h: seq<Call>)
    ensures Create.Run(r, h) == InstallSpec(server, h0, o, file, confirmed)
  {
    var invalid := Promote.ValidateEnvironments(o.environment, o.fromEnvironment);
    if invalid.Some? {
      return Err("Error command validation: " + invalid.value), h0;
    }
    var filter := BuildFilter(o.fromEnvironment);
    var deployments;
    deployments, h := DeploymentFilter.GetDeploymentFilter(server, h0, filter);
    if deployments.Err? {
      return deployments, h;
    }
    if |deployments.value| == 0 {
      return Err(Create.NoSourceMessage(o.fromEnvironment)), h;
    }
    var blacklistServers: seq<string> := [];
    if o.blacklist != "" {
      if file.Err? {
        return Err("Error reading file blacklist: " + file.msg), h;
      }
      blacklistServers := Split(file.value, '\n');
    }
    var survivors := Promote.RemoveExcluded(deployments.value, blacklistServers, RuntimeBlacklist);
    if !confirmed {
      return Ok([]), h;
    }
    var created, err;
    created, err, h := Promote.CreateAll(server, h, survivors, o.environment, o.deploymentDate);
    if err.Some? {
      return Err("Error Create Deployment: " + err.value), h;
    }
    r := Ok(created);
  }

  /** Invalid environments are fatal before any call. */
  lemma InvalidMakesNoCall(server: Server, h0: seq<Call>, o: InstallOptions, file: Result<string>, confirmed: bool)
    requires !(ClientUtil.ValidateSingleChar(o.environment) && ClientUtil.ValidateSingleChar(o.fromEnvironment))
    ensures InstallSpec(server, h0, o, file, confirmed).history == h0
    ensures InstallSpec(server, h0, o, file, confirmed).result.Err?
  {
  }

  /** Declining the confirmation creates nothing: the one filter query is the only call and the
      result is an empty list. */
  lemma DeclinedCreatesNothing(server: Server, h0: seq<Call>, o: InstallOptions, file: Result<string>)
    requires ClientUtil.ValidateSingleChar(o.environment) && ClientUtil.ValidateSingleChar(o.fromEnvironment)
    requires var answer := server.deployments(h0 + [GetFiltered(RawFilter(o.fromEnvironment))]);
             answer.Ok? && answer.value != []
    requires BlacklistServers(o.blacklist, file).Ok?
    ensures InstallSpec(server, h0, o, file, false) == Create.Run(Ok([]), h0 + [GetFiltered(RawFilter(o.fromEnvironment))])
  {
  }

  /** A confirmed installation that succeeds has created one deployment per survivor of the
      black lists; one that fails at a creation reports that creation's error. */
  lemma ConfirmedCreatesEverySurvivor(server: Server, h0: seq<Call>, o: InstallOptions, file: Result<string>)
    requires ClientUtil.ValidateSingleChar(o.environment) && ClientUtil.ValidateSingleChar(o.fromEnvironment)
    requires var answer := server.deployments(h0 + [GetFiltered(RawFilter(o.fromEnvironment))]);
             answer.Ok? && answer.value != []
    requires BlacklistServers(o.blacklist, file).Ok?
    ensures var h1 := h0 + [GetFiltered(RawFilter(o.fromEnvironment))];
            var survivors := Promote.Survivors(server.deployments(h1).value, BlacklistServers(o.blacklist, file).value, RuntimeBlacklist);
            var batch := Promote.CreateEach(server, h1, survivors, o.environment, o.deploymentDate);
            var run := InstallSpec(server, h0, o, file, true);
            && (run.result.Ok? ==> |run.result.value| == |survivors| && batch.err.None?)
            && (run.result.Err? ==> batch.err.Some? && run.result.msg == "Error Create Deployment: " + batch.err.value)
  {
    var h1 := h0 + [GetFiltered(RawFilter(o.fromEnvironment))];
    var survivors := Promote.Survivors(server.deployments(h1).value, BlacklistServers(o.blacklist, file).value, RuntimeBlacklist);
    Promote.CreateEachCount(server, h1, survivors, o.environment, o.deploymentDate);
  }

  /** A deployment on a Kubernetes or Kube_helm runtime is never installed. */
  lemma KubernetesIsNeverInstalled(d: Deployment, servers: seq<string>)
    requires d.runtimeName == "Kubernetes" || d.runtimeName == "Kube_helm"
    ensures !Promote.Survives(d, servers, RuntimeBlacklist)
  {
    var k := if d.runtimeName == "Kubernetes" then 0 else 1;
    assert RuntimeBlacklist[k] == d.runtimeName;
    assert TrimSpace(RuntimeBlacklist[k]) == TrimSpace(d.runtimeName);
  }
}
